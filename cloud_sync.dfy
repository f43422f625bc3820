/**
 * `CloudSyncManager`'s state machine: the manifest flag, the user's
 * preference and the store actually opened decide between a CloudKit-backed
 * store, a local store and none, and the status shown in settings. Opening a
 * store is an input (`Disk`), as is the asynchronous iCloud account lookup,
 * which arrives through its own method.
 */
module CloudSync {
  import opened Wrappers
  import opened Strings
  import opened CloudRecords

  datatype Status = DisabledByManifest | DisabledByUser | Checking | Enabled | NoICloudAccount | Restricted | Unavailable | LocalFallback {
    /** `statusLabel`. */
    function Label(): string {
      match this
      case DisabledByManifest => "Disabled"
      case DisabledByUser => "Off"
      case Checking => "Checking"
      case Enabled => "On"
      case NoICloudAccount => "No iCloud Account"
      case Restricted => "Restricted"
      case Unavailable => "Unavailable"
      case LocalFallback => "Local Fallback"
    }
  }

  /** Each status has its own label. */
  lemma LabelsDistinct(a: Status, b: Status)
    ensures a.Label() == b.Label() ==> a == b
  {
  }

  /** The settings screen's hint under the status: only where the user can do something about it. */
  function Guidance(status: Status): (r: Option<string>)
    ensures r.Some? <==> status == DisabledByUser || status == Unavailable || status == LocalFallback
  {
    match status
    case DisabledByUser => Some("Turn on \"Sync with iCloud\" to back up and sync across devices.")
    case Unavailable => Some("Check iCloud sign-in in Settings > Apple ID > iCloud, then tap Refresh.")
    case LocalFallback => Some("Check iCloud sign-in in Settings > Apple ID > iCloud, then tap Refresh.")
    case _ => None
  }

  datatype StorageMode = NoStore | LocalStore | CloudStore

  const DisabledDetail: string := "Cloud sync is disabled."
  const ManifestOffDetail: string := "Cloud sync is disabled in manifest. Data is saved locally on this device."
  const UserOffDetail: string := "iCloud Sync is off. New changes stay on this device. Existing iCloud data is not deleted."
  const UnavailableDetail: string := "iCloud Sync is currently unavailable. Your data is still saved locally."
  const CheckingDetail: string := "Checking iCloud account status."
  const InitializingDetail: string := "Initializing CloudKit store."
  const ConnectedDetail: string := "Connected to iCloud. Test records should sync across devices."
  const NoAccountDetail: string := "No iCloud account found. Sign in via iOS Settings."
  const RestrictedDetail: string := "iCloud access is restricted on this device."
  const NotInitializedDetail: string := "Persistent store not initialized."
  const LocalFailedDetail: string := "Failed to initialize local store."
  const UsingLocalDetail: string := "Using local storage."
  /** The missing-container `NSError` (domain "CloudSyncManager", code 1001) as `describe` formats it. */
  const MissingContainerError: string := "CloudSyncManager (1001): Cloud container ID is missing."

  /** The part of `refreshStatus` that runs at once, in its fixed order of checks. */
  function RefreshedStatus(featureEnabled: bool, containerID: Option<string>, userEnabled: bool, mode: StorageMode): (r: (Status, string))
    ensures r.0 == DisabledByManifest <==> !featureEnabled || containerID.None?
    ensures r.0 == DisabledByUser <==> featureEnabled && containerID.Some? && !userEnabled
    ensures r.0 == LocalFallback <==> featureEnabled && containerID.Some? && userEnabled && mode != CloudStore
    ensures r.0 == Checking <==> featureEnabled && containerID.Some? && userEnabled && mode == CloudStore
  {
    if !featureEnabled || containerID.None? then (DisabledByManifest, ManifestOffDetail)
    else if !userEnabled then (DisabledByUser, UserOffDetail)
    else if mode != CloudStore then (LocalFallback, UnavailableDetail)
    else (Checking, CheckingDetail)
  }

  /** `CKAccountStatus`. */
  datatype AccountStatus = Available | NoAccount | AccountRestricted | TemporarilyUnavailable | CouldNotDetermine | UnknownAccountStatus

  /** What `fetchCloudAccountStatus` delivers. */
  datatype AccountLookup = Found(accountStatus: AccountStatus) | LookupFailed(description: string)

  /** The status an account lookup leads to: every answer but the three definite ones means unavailable. */
  function AccountOutcome(lookup: AccountLookup): (r: (Status, string))
    ensures r.0 == Enabled <==> lookup == Found(Available)
    ensures r.0 == NoICloudAccount <==> lookup == Found(NoAccount)
    ensures r.0 == Restricted <==> lookup == Found(AccountRestricted)
    ensures r.0 != Enabled && r.0 != NoICloudAccount && r.0 != Restricted ==> r == (Unavailable, UnavailableDetail)
  {
    match lookup
    case Found(Available) => (Enabled, ConnectedDetail)
    case Found(NoAccount) => (NoICloudAccount, NoAccountDetail)
    case Found(AccountRestricted) => (Restricted, RestrictedDetail)
    case _ => (Unavailable, UnavailableDetail)
  }

  /** The `UserDefaults` key of an app's sync preference. */
  function PreferenceKey(appID: string): string {
    "cloudSyncPreference." + appID
  }

  /** `loadUserPreference(for:defaultValue:)`. */
  function LoadPreference(preferences: map<string, bool>, appID: string, default: bool): bool {
    if PreferenceKey(appID) in preferences then preferences[PreferenceKey(appID)] else default
  }

  /** A saved preference loads back, and saving one app's preference leaves every other app's alone. */
  lemma SavedPreferenceLoads(preferences: map<string, bool>, appID: string, other: string, value: bool, default: bool)
    ensures LoadPreference(preferences[PreferenceKey(appID) := value], appID, default) == value
    ensures other != appID ==>
      LoadPreference(preferences[PreferenceKey(appID) := value], other, default) == LoadPreference(preferences, other, default)
  {
    PreferenceKeyInjective(appID, other);
  }

  lemma PreferenceKeyInjective(a: string, b: string)
    ensures PreferenceKey(a) == PreferenceKey(b) ==> a == b
  {
    var n := |"cloudSyncPreference."|;
    assert PreferenceKey(a)[n..] == a;
    assert PreferenceKey(b)[n..] == b;
  }

  function BoolText(b: bool): string {
    if b then "true" else "false"
  }

  /** The CloudKit container an app uses when the manifest enables sync. */
  function ContainerIDFor(appId: string, cloudEnabled: bool): Option<string> {
    if cloudEnabled then Some("iCloud." + appId) else None
  }

  /** `configurationSignature`: the app id, the flag, the container (or "none") and the preference, joined by '|'. */
  function SignatureOf(appId: string, cloudEnabled: bool, userPref: bool): string {
    appId + "|" + BoolText(cloudEnabled) + "|" + ContainerIDFor(appId, cloudEnabled).GetOr("none") + "|" + BoolText(userPref)
  }

  /** For one app, the signature changes whenever the manifest flag or the preference does. */
  lemma SignatureTracksSettings(appId: string, cloud1: bool, pref1: bool, cloud2: bool, pref2: bool)
    ensures SignatureOf(appId, cloud1, pref1) == SignatureOf(appId, cloud2, pref2) ==> cloud1 == cloud2 && pref1 == pref2
  {
    assert |SignatureOf(appId, cloud1, pref1)| == (if cloud1 then 2 * |appId| + 14 else |appId| + 12) + |BoolText(pref1)|;
    assert |SignatureOf(appId, cloud2, pref2)| == (if cloud2 then 2 * |appId| + 14 else |appId| + 12) + |BoolText(pref2)|;
  }

  /** What opening each persistent store yields: its objects, or the error described. The cloud store's reset and retry are folded in. */
  datatype Disk = Disk(local: Result<seq<StoredObject>, string>, cloud: Result<seq<StoredObject>, string>)

  /** The objects a store opened with, or none when it did not open. */
  function Opened(r: Result<seq<StoredObject>, string>): seq<StoredObject> {
    if r.Success? then r.value else []
  }

  /** What a migration leaves in a target holding `target`: the source's records merged in, or nothing new without a source. */
  function MigratedObjects(source: Option<seq<StoredObject>>, target: seq<StoredObject>): seq<StoredObject> {
    match source
    case None => target
    case Some(objects) => MergeAll(target, IndexById(target), Fetch(objects))
  }

  /** The local fallback's detail text for the status it is asked to show. */
  function LocalDetail(status: Status): string {
    match status
    case DisabledByManifest => ManifestOffDetail
    case DisabledByUser => UserOffDetail
    case LocalFallback => UnavailableDetail
    case _ => UsingLocalDetail
  }

  /** The objects of a store, or none when the store is not open. */
  ghost function OpenObjects(store: Store?): Option<seq<StoredObject>>
    reads store
  {
    if store == null then None else Some(store.objects)
  }

  /** `store` is open exactly when `objects` is present, and then holds exactly those objects. */
  ghost predicate Holds(store: Store?, objects: Option<seq<StoredObject>>)
    reads store
  {
    if objects.None? then store == null else store != null && store.objects == objects.value
  }

  /** What a store holds once `ensure…Container()` has run: its objects if it was open, otherwise what opening it yields. */
  function AfterOpening(before: Option<seq<StoredObject>>, opening: Result<seq<StoredObject>, string>): Option<seq<StoredObject>> {
    if before.Some? then before else if opening.Success? then Some(opening.value) else None
  }

  class CloudSyncManager {
    var status: Status
    var statusDetail: string
    var activeContainerID: Option<string>
    var items: seq<Record>
    var lastErrorMessage: Option<string>
    var isUserCloudSyncEnabled: bool
    var activeContainer: Store?
    var localContainer: Store?
    var cloudContainer: Store?
    var storageMode: StorageMode
    var isCloudFeatureEnabled: bool
    var currentAppID: Option<string>
    var currentCloudContainerID: Option<string>
    var lastConfigurationSignature: Option<string>
    /** `UserDefaults.standard`, as far as the manager uses it. */
    var preferences: map<string, bool>

    /** The active store is the one the storage mode names, and the two stores are distinct. */
    ghost predicate Valid()
      reads this
    {
      && (storageMode == NoStore <==> activeContainer == null)
      && (storageMode == LocalStore ==> activeContainer == localContainer)
      && (storageMode == CloudStore ==> activeContainer == cloudContainer)
      && (localContainer != null ==> localContainer != cloudContainer)
    }

    /** The configuration the manager was last given, which store activation leaves alone. */
    ghost function Settings(): (bool, Option<string>, bool, Option<string>, Option<string>, Option<string>, map<string, bool>)
      reads this
    {
      (isCloudFeatureEnabled, activeContainerID, isUserCloudSyncEnabled, currentAppID, currentCloudContainerID,
       lastConfigurationSignature, preferences)
    }

    /** The records the settings screen lists: the active store's, newest first. */
    ghost function VisibleRecords(): seq<Record>
      reads this, activeContainer
    {
      if activeContainer == null then [] else Fetch(activeContainer.objects)
    }

    /** What a migration into `target` copies from: the active store, unless there is none or it is the target. */
    ghost function MigrationSource(target: Store?): Option<seq<StoredObject>>
      reads this, activeContainer
    {
      if activeContainer == null || activeContainer == target then None else Some(activeContainer.objects)
    }

    /** The status a manual refresh settles on at once. */
    ghost function Refreshed(): (Status, string)
      reads this
    {
      RefreshedStatus(isCloudFeatureEnabled, activeContainerID, isUserCloudSyncEnabled, storageMode)
    }

    constructor(preferences: map<string, bool>)
      ensures Valid()
      ensures status == DisabledByManifest && statusDetail == DisabledDetail && items == [] && lastErrorMessage == None
      ensures Settings() == (false, None, true, None, None, None, preferences)
      ensures storageMode == NoStore && localContainer == null && cloudContainer == null
    {
      status := DisabledByManifest;
      statusDetail := DisabledDetail;
      activeContainerID := None;
      items := [];
      lastErrorMessage := None;
      isUserCloudSyncEnabled := true;
      activeContainer := null;
      localContainer := null;
      cloudContainer := null;
      storageMode := NoStore;
      isCloudFeatureEnabled := false;
      currentAppID := None;
      currentCloudContainerID := None;
      lastConfigurationSignature := None;
      this.preferences := preferences;
    }

    /** `fetchRecords()`: the active store's records, or none without a store. */
    method FetchRecords()
      modifies this`items
      ensures items == VisibleRecords()
    {
      if activeContainer == null {
        items := [];
      } else {
        items := Fetch(activeContainer.objects);
      }
    }

    /** `refreshStatus()` up to the account lookup, which `AccountStatusArrived` completes. */
    method RefreshStatus()
      requires Valid()
      modifies this`items, this`status, this`statusDetail
      ensures Valid()
      ensures items == VisibleRecords()
      ensures (status, statusDetail) == Refreshed()
    {
      FetchRecords();
      assert Valid();
      if !isCloudFeatureEnabled || activeContainerID.None? {
        status := DisabledByManifest;
        statusDetail := ManifestOffDetail;
        return;
      }
      if !isUserCloudSyncEnabled {
        status := DisabledByUser;
        statusDetail := UserOffDetail;
        return;
      }
      if storageMode != CloudStore {
        status := LocalFallback;
        statusDetail := UnavailableDetail;
        return;
      }
      status := Checking;
      statusDetail := CheckingDetail;
    }

    /** The account lookup's answer; an answer for a container that is no longer active is dropped. */
    method AccountStatusArrived(containerID: string, lookup: AccountLookup)
      modifies this`status, this`statusDetail, this`lastErrorMessage
      ensures activeContainerID != Some(containerID) ==>
        status == old(status) && statusDetail == old(statusDetail) && lastErrorMessage == old(lastErrorMessage)
      ensures activeContainerID == Some(containerID) ==>
        && (status, statusDetail) == AccountOutcome(lookup)
        && lastErrorMessage == if lookup.LookupFailed? then Some(lookup.description) else old(lastErrorMessage)
    {
      if activeContainerID != Some(containerID) {
        return;
      }
      var outcome := AccountOutcome(lookup);
      status := outcome.0;
      statusDetail := outcome.1;
      if lookup.LookupFailed? {
        lastErrorMessage := Some(lookup.description);
      }
    }

    /** `ensureLocalContainer()`: the store already open, or a newly opened one. */
    method EnsureLocalContainer(disk: Disk) returns (r: Result<Store, string>)
      modifies this`localContainer
      ensures old(localContainer) != null ==> r == Success(old(localContainer)) && localContainer == old(localContainer)
      ensures old(localContainer) == null && disk.local.Failure? ==> r == Failure(disk.local.error) && localContainer == null
      ensures old(localContainer) == null && disk.local.Success? ==>
        r.Success? && fresh(r.value) && r.value.objects == disk.local.value && localContainer == r.value
    {
      if localContainer != null {
        return Success(localContainer);
      }
      if disk.local.Failure? {
        return Failure(disk.local.error);
      }
      var store := new Store(disk.local.value);
      localContainer := store;
      r := Success(store);
    }

    /** `ensureCloudContainer()`: the store already open, or a newly opened one; without a container id it throws. */
    method EnsureCloudContainer(disk: Disk) returns (r: Result<Store, string>)
      modifies this`cloudContainer
      ensures old(cloudContainer) != null ==> r == Success(old(cloudContainer)) && cloudContainer == old(cloudContainer)
      ensures old(cloudContainer) == null && currentCloudContainerID.None? ==> r == Failure(MissingContainerError) && cloudContainer == null
      ensures old(cloudContainer) == null && currentCloudContainerID.Some? && disk.cloud.Failure? ==>
        r == Failure(disk.cloud.error) && cloudContainer == null
      ensures old(cloudContainer) == null && currentCloudContainerID.Some? && disk.cloud.Success? ==>
        r.Success? && fresh(r.value) && r.value.objects == disk.cloud.value && cloudContainer == r.value
    {
      if cloudContainer != null {
        return Success(cloudContainer);
      }
      if currentCloudContainerID.None? {
        return Failure(MissingContainerError);
      }
      if disk.cloud.Failure? {
        return Failure(disk.cloud.error);
      }
      var store := new Store(disk.cloud.value);
      cloudContainer := store;
      r := Success(store);
    }

    /** The optional migration step of store activation, from the active store into `store`. */
    method MigrateInto(store: Store, migrateFromCurrent: bool)
      modifies store`objects
      ensures store.objects == MigratedObjects(if migrateFromCurrent then old(MigrationSource(store)) else None, old(store.objects))
    {
      if migrateFromCurrent {
        MigrateRecords(activeContainer, store);
      }
    }

    /**
     * `activateLocalStore(statusOnSuccess:migrateFromCurrent:)`: the local
     * store becomes active (after taking in the current store's records when
     * asked to) and shows the requested status; if it cannot be opened there is
     * no store at all.
     */
    method ActivateLocalStore(statusOnSuccess: Status, migrateFromCurrent: bool, disk: Disk)
      requires Valid()
      modifies this`activeContainer, this`storageMode, this`items, this`status, this`statusDetail, this`lastErrorMessage
      modifies this`localContainer, localContainer
      ensures Valid()
      ensures Holds(cloudContainer, old(OpenObjects(cloudContainer)))
      ensures old(localContainer) != null || disk.local.Success? ==>
        && localContainer != null && storageMode == LocalStore
        && localContainer.objects ==
             MigratedObjects(if migrateFromCurrent then old(MigrationSource(localContainer)) else None,
                             if old(localContainer) != null then old(localContainer.objects) else disk.local.value)
        && items == VisibleRecords()
        && status == statusOnSuccess && statusDetail == LocalDetail(statusOnSuccess)
        && lastErrorMessage == old(lastErrorMessage)
      ensures old(localContainer) == null && disk.local.Failure? ==>
        && localContainer == null && storageMode == NoStore && items == [] && status == Unavailable && statusDetail == LocalFailedDetail
        && lastErrorMessage == Some(disk.local.error)
    {
      ghost var before := if localContainer != null then localContainer.objects else Opened(disk.local);
      ghost var source := if migrateFromCurrent then MigrationSource(localContainer) else None;
      var target := EnsureLocalContainer(disk);
      if target.Failure? {
        activeContainer := null;
        storageMode := NoStore;
        items := [];
        status := Unavailable;
        statusDetail := LocalFailedDetail;
        lastErrorMessage := Some(target.error);
        return;
      }
      var store := target.value;
      assert store.objects == before;
      assert migrateFromCurrent ==> MigrationSource(store) == source;
      MigrateInto(store, migrateFromCurrent);
      UseLocalStore(store, statusOnSuccess);
    }

    /** The rest of `activateLocalStore` once the local store is open. */
    method UseLocalStore(store: Store, statusOnSuccess: Status)
      requires Valid() && localContainer == store
      modifies this`activeContainer, this`storageMode, this`items, this`status, this`statusDetail
      ensures Valid() && storageMode == LocalStore
      ensures items == VisibleRecords()
      ensures status == statusOnSuccess && statusDetail == LocalDetail(statusOnSuccess)
    {
      activeContainer := store;
      storageMode := LocalStore;
      status := statusOnSuccess;
      statusDetail := LocalDetail(statusOnSuccess);
      assert Valid();
      FetchRecords();
    }

    /**
     * `activateCloudStore(migrateFromCurrent:)`: the CloudKit store becomes
     * active (after taking in the current store's records when asked to) and
     * the status is refreshed; if it cannot be opened the local store takes
     * over as the fallback.
     */
    method ActivateCloudStore(migrateFromCurrent: bool, disk: Disk)
      requires Valid()
      modifies this`activeContainer, this`storageMode, this`items, this`status, this`statusDetail, this`lastErrorMessage
      modifies this`localContainer, this`cloudContainer, localContainer, cloudContainer
      ensures Valid()
      ensures old(cloudContainer) != null || (currentCloudContainerID.Some? && disk.cloud.Success?) ==>
        && cloudContainer != null && storageMode == CloudStore && activeContainer == cloudContainer
        && cloudContainer.objects ==
             MigratedObjects(if migrateFromCurrent then old(MigrationSource(cloudContainer)) else None,
                             if old(cloudContainer) != null then old(cloudContainer.objects) else disk.cloud.value)
        && Holds(localContainer, old(OpenObjects(localContainer)))
        && items == VisibleRecords()
        && (status, statusDetail) == Refreshed()
        && lastErrorMessage == old(lastErrorMessage)
      ensures old(cloudContainer) == null && (currentCloudContainerID.None? || disk.cloud.Failure?) ==>
        && cloudContainer == null
        && (old(localContainer) != null || disk.local.Success? ==>
              && localContainer != null && storageMode == LocalStore
              && localContainer.objects == (if old(localContainer) != null then old(localContainer.objects) else disk.local.value)
              && items == VisibleRecords()
              && status == LocalFallback && statusDetail == UnavailableDetail
              && lastErrorMessage == Some(if currentCloudContainerID.None? then MissingContainerError else disk.cloud.error))
        && (old(localContainer) == null && disk.local.Failure? ==>
              && localContainer == null && storageMode == NoStore && items == [] && status == Unavailable && statusDetail == LocalFailedDetail
              && lastErrorMessage == Some(disk.local.error))
    {
      ghost var before := if cloudContainer != null then cloudContainer.objects else Opened(disk.cloud);
      status := Checking;
      statusDetail := InitializingDetail;
      var target := EnsureCloudContainer(disk);
      if target.Failure? {
        assert target.error == if currentCloudContainerID.None? then MissingContainerError else disk.cloud.error;
        FallBackToLocal(target.error, disk);
        return;
      }
      var store := target.value;
      assert store.objects == before;
      UseCloudStore(store, migrateFromCurrent);
    }

    /** `activateCloudStore`'s error path: the error is recorded and the local store is activated as the fallback. */
    method FallBackToLocal(error: string, disk: Disk)
      requires Valid()
      modifies this`activeContainer, this`storageMode, this`items, this`status, this`statusDetail, this`lastErrorMessage
      modifies this`localContainer, localContainer
      ensures Valid()
      ensures old(localContainer) != null || disk.local.Success? ==>
        && localContainer != null && storageMode == LocalStore
        && localContainer.objects == (if old(localContainer) != null then old(localContainer.objects) else disk.local.value)
        && items == VisibleRecords()
        && status == LocalFallback && statusDetail == UnavailableDetail
        && lastErrorMessage == Some(error)
      ensures old(localContainer) == null && disk.local.Failure? ==>
        && localContainer == null && storageMode == NoStore && items == [] && status == Unavailable && statusDetail == LocalFailedDetail
        && lastErrorMessage == Some(disk.local.error)
    {
      lastErrorMessage := Some(error);
      ActivateLocalStore(LocalFallback, false, disk);
      assert LocalDetail(LocalFallback) == UnavailableDetail;
    }

    /** The rest of `activateCloudStore` once the CloudKit store is open: the optional migration, then the store becomes active. */
    method UseCloudStore(store: Store, migrateFromCurrent: bool)
      requires Valid() && cloudContainer == store
      modifies this`activeContainer, this`storageMode, this`items, this`status, this`statusDetail, store`objects
      ensures Valid() && storageMode == CloudStore && activeContainer == store
      ensures store.objects == MigratedObjects(if migrateFromCurrent then old(MigrationSource(store)) else None, old(store.objects))
      ensures items == VisibleRecords()
      ensures (status, statusDetail) == Refreshed()
    {
      MigrateInto(store, migrateFromCurrent);
      activeContainer := store;
      storageMode := CloudStore;
      FetchRecords();
      RefreshStatus();
    }

    /**
     * `configure(using:)` with the manifest's app id and cloud-sync flag. An
     * unchanged configuration signature only refreshes the status; any other
     * is recorded and the configuration applied.
     */
    method Configure(appId: string, cloudSync: bool, disk: Disk)
      requires Valid()
      modifies this`activeContainer, this`storageMode, this`items, this`status, this`statusDetail, this`lastErrorMessage
      modifies this`localContainer, this`cloudContainer, this`lastConfigurationSignature, this`currentAppID
      modifies this`currentCloudContainerID, this`isCloudFeatureEnabled, this`activeContainerID, this`isUserCloudSyncEnabled
      modifies localContainer, cloudContainer
      ensures Valid()
      ensures var signature := SignatureOf(appId, cloudSync, LoadPreference(old(preferences), appId, true));
        Some(signature) == old(lastConfigurationSignature) ==>
          && Settings() == old(Settings()) && storageMode == old(storageMode) && activeContainer == old(activeContainer)
          && items == VisibleRecords() && (status, statusDetail) == Refreshed()
      ensures var signature := SignatureOf(appId, cloudSync, LoadPreference(old(preferences), appId, true));
        Some(signature) != old(lastConfigurationSignature) ==>
          && lastConfigurationSignature == Some(signature)
          && Configured(appId, cloudSync, LoadPreference(old(preferences), appId, true), disk,
                        old(if currentAppID == Some(appId) then OpenObjects(localContainer) else None),
                        old(if currentAppID == Some(appId) then OpenObjects(cloudContainer) else None))
    {
      var userPref := LoadPreference(preferences, appId, true);
      var signature := SignatureOf(appId, cloudSync, userPref);
      if Some(signature) == lastConfigurationSignature {
        RefreshStatus();
        return;
      }
      lastConfigurationSignature := Some(signature);
      ApplyConfiguration(appId, cloudSync, userPref, disk);
    }

    /** The store, status, listed records and error the manager shows. */
    ghost predicate Shows(mode: StorageMode, shown: Status, detail: string, error: Option<string>)
      reads this, activeContainer
    {
      storageMode == mode && status == shown && statusDetail == detail && items == VisibleRecords() && lastErrorMessage == error
    }

    /**
     * The configuration in effect after `configure` applied it: the settings
     * taken over, and the store, status, records and error that the flag, the
     * preference and the stores' opening lead to (`localBefore`,
     * `cloudBefore`: the objects of a store kept from before). Nothing is
     * migrated: the store activated holds what it held or what opening it
     * yields, and the other store is left as it was. A cloud store that fails
     * to open falls back to the local one with its error recorded; a local
     * store that fails leaves no store.
     */
    ghost predicate Configured(appId: string, cloudSync: bool, userPref: bool, disk: Disk,
                               localBefore: Option<seq<StoredObject>>, cloudBefore: Option<seq<StoredObject>>)
      reads this, activeContainer, localContainer, cloudContainer
    {
      && currentAppID == Some(appId) && currentCloudContainerID == ContainerIDFor(appId, cloudSync)
      && isCloudFeatureEnabled == cloudSync && activeContainerID == ContainerIDFor(appId, cloudSync)
      && isUserCloudSyncEnabled == userPref
      && (!cloudSync && (localBefore.Some? || disk.local.Success?) ==>
            Shows(LocalStore, DisabledByManifest, ManifestOffDetail, None))
      && (cloudSync && !userPref && (localBefore.Some? || disk.local.Success?) ==>
            Shows(LocalStore, DisabledByUser, UserOffDetail, None))
      && ((!cloudSync || !userPref) && localBefore.None? && disk.local.Failure? ==>
            Shows(NoStore, Unavailable, LocalFailedDetail, Some(disk.local.error)) && items == [])
      && ((!cloudSync || !userPref) ==>
            Holds(localContainer, AfterOpening(localBefore, disk.local)) && Holds(cloudContainer, cloudBefore))
      && (cloudSync && userPref && (cloudBefore.Some? || disk.cloud.Success?) ==>
            Shows(CloudStore, Checking, CheckingDetail, None)
            && Holds(cloudContainer, AfterOpening(cloudBefore, disk.cloud)) && Holds(localContainer, localBefore))
      && (cloudSync && userPref && cloudBefore.None? && disk.cloud.Failure? ==>
            cloudContainer == null && Holds(localContainer, AfterOpening(localBefore, disk.local)))
      && (cloudSync && userPref && cloudBefore.None? && disk.cloud.Failure? && (localBefore.Some? || disk.local.Success?) ==>
            Shows(LocalStore, LocalFallback, UnavailableDetail, Some(disk.cloud.error)))
      && (cloudSync && userPref && cloudBefore.None? && disk.cloud.Failure? && localBefore.None? && disk.local.Failure? ==>
            Shows(NoStore, Unavailable, LocalFailedDetail, Some(disk.local.error)) && items == [])
    }

    /** The part of `configure` after the signature check: a new app drops both stores; nothing is migrated. */
    method ApplyConfiguration(appId: string, cloudSync: bool, userPref: bool, disk: Disk)
      requires Valid()
      modifies this`activeContainer, this`storageMode, this`items, this`status, this`statusDetail, this`lastErrorMessage
      modifies this`localContainer, this`cloudContainer, this`currentAppID
      modifies this`currentCloudContainerID, this`isCloudFeatureEnabled, this`activeContainerID, this`isUserCloudSyncEnabled
      modifies localContainer, cloudContainer
      ensures Valid()
      ensures Configured(appId, cloudSync, userPref, disk,
                         old(if currentAppID == Some(appId) then OpenObjects(localContainer) else None),
                         old(if currentAppID == Some(appId) then OpenObjects(cloudContainer) else None))
    {
      var containerID := ContainerIDFor(appId, cloudSync);
      if currentAppID != Some(appId) {
        localContainer := null;
        cloudContainer := null;
        storageMode := NoStore;
        activeContainer := null;
      }
      currentAppID := Some(appId);
      currentCloudContainerID := containerID;
      isCloudFeatureEnabled := cloudSync;
      activeContainerID := containerID;
      isUserCloudSyncEnabled := userPref;
      lastErrorMessage := None;
      if !cloudSync || containerID.None? {
        activeContainerID := None;
        isCloudFeatureEnabled := false;
      }
      ActivateConfigured(appId, cloudSync, userPref, disk);
    }

    /** The store `configure` opens once the new settings are in place: local when either flag is off, otherwise cloud. */
    method ActivateConfigured(appId: string, cloudSync: bool, userPref: bool, disk: Disk)
      requires Valid() && lastErrorMessage == None
      requires currentAppID == Some(appId) && currentCloudContainerID == ContainerIDFor(appId, cloudSync)
      requires isCloudFeatureEnabled == cloudSync && activeContainerID == ContainerIDFor(appId, cloudSync)
      requires isUserCloudSyncEnabled == userPref
      modifies this`activeContainer, this`storageMode, this`items, this`status, this`statusDetail, this`lastErrorMessage
      modifies this`localContainer, this`cloudContainer, localContainer, cloudContainer
      ensures Valid()
      ensures Configured(appId, cloudSync, userPref, disk, old(OpenObjects(localContainer)), old(OpenObjects(cloudContainer)))
    {
      if !cloudSync {
        ActivateLocalStore(DisabledByManifest, false, disk);
      } else if userPref {
        ActivateCloudStore(false, disk);
      } else {
        ActivateLocalStore(DisabledByUser, false, disk);
      }
    }

    /**
     * `setUserCloudSyncEnabled(_:)`: without the cloud feature, without an
     * app id, or with the value already in effect nothing happens. Otherwise
     * the preference is saved and the current records move into the store the
     * new value calls for.
     */
    method SetUserCloudSyncEnabled(enabled: bool, disk: Disk)
      requires Valid()
      modifies this`activeContainer, this`storageMode, this`items, this`status, this`statusDetail, this`lastErrorMessage
      modifies this`localContainer, this`cloudContainer, this`preferences, this`isUserCloudSyncEnabled
      modifies localContainer, cloudContainer
      ensures Valid()
      ensures !old(isCloudFeatureEnabled) || old(currentAppID).None? || enabled == old(isUserCloudSyncEnabled) ==>
        && unchanged(this)
        && (localContainer != null ==> unchanged(localContainer))
        && (cloudContainer != null ==> unchanged(cloudContainer))
      ensures old(isCloudFeatureEnabled) && old(currentAppID).Some? && enabled != old(isUserCloudSyncEnabled) ==>
        && preferences == old(preferences)[PreferenceKey(old(currentAppID).value) := enabled]
        && isUserCloudSyncEnabled == enabled
        && (enabled && (old(cloudContainer) != null || (currentCloudContainerID.Some? && disk.cloud.Success?)) ==>
              && cloudContainer != null && storageMode == CloudStore
              && cloudContainer.objects ==
                   MigratedObjects(old(MigrationSource(cloudContainer)),
                                   if old(cloudContainer) != null then old(cloudContainer.objects) else disk.cloud.value)
              && Holds(localContainer, old(OpenObjects(localContainer)))
              && items == VisibleRecords() && (status, statusDetail) == Refreshed()
              && lastErrorMessage == old(lastErrorMessage))
        && (enabled && old(cloudContainer) == null && (currentCloudContainerID.None? || disk.cloud.Failure?) ==>
              && cloudContainer == null && Holds(localContainer, AfterOpening(old(OpenObjects(localContainer)), disk.local))
              && (old(localContainer) != null || disk.local.Success? ==>
                    Shows(LocalStore, LocalFallback, UnavailableDetail,
                          Some(if currentCloudContainerID.None? then MissingContainerError else disk.cloud.error)))
              && (old(localContainer) == null && disk.local.Failure? ==>
                    Shows(NoStore, Unavailable, LocalFailedDetail, Some(disk.local.error)) && items == []))
        && (!enabled ==> Holds(cloudContainer, old(OpenObjects(cloudContainer))))
        && (!enabled && (old(localContainer) != null || disk.local.Success?) ==>
              && localContainer != null
              && localContainer.objects ==
                   MigratedObjects(old(MigrationSource(localContainer)),
                                   if old(localContainer) != null then old(localContainer.objects) else disk.local.value)
              && Shows(LocalStore, DisabledByUser, UserOffDetail, old(lastErrorMessage)))
        && (!enabled && old(localContainer) == null && disk.local.Failure? ==>
              Shows(NoStore, Unavailable, LocalFailedDetail, Some(disk.local.error)) && items == [])
    {
      if !isCloudFeatureEnabled || currentAppID.None? {
        return;
      }
      if enabled == isUserCloudSyncEnabled {
        return;
      }
      preferences := preferences[PreferenceKey(currentAppID.value) := enabled];
      isUserCloudSyncEnabled := enabled;
      if enabled {
        ActivateCloudStore(true, disk);
      } else {
        ActivateLocalStore(DisabledByUser, true, disk);
      }
    }

    /**
     * `mutateContext(_:)`: applies a change to the active store's objects and
     * fetches again; without a store the status turns unavailable instead.
     */
    method MutateContext(work: seq<StoredObject> -> seq<StoredObject>)
      requires Valid()
      modifies this`items, this`status, this`statusDetail, this`lastErrorMessage, activeContainer
      ensures Valid()
      ensures old(activeContainer) == null ==>
        && status == Unavailable && statusDetail == NotInitializedDetail
        && items == old(items) && lastErrorMessage == old(lastErrorMessage)
      ensures old(activeContainer) != null ==>
        && activeContainer.objects == work(old(activeContainer.objects))
        && items == Fetch(activeContainer.objects) && lastErrorMessage == None
        && status == old(status) && statusDetail == old(statusDetail)
    {
      if activeContainer == null {
        status := Unavailable;
        statusDetail := NotInitializedDetail;
        return;
      }
      activeContainer.objects := work(activeContainer.objects);
      lastErrorMessage := None;
      FetchRecords();
    }

    /** `addTestRecord()`: a new object with a fresh id, the stamped text and the current date, and no image. */
    method AddTestRecord(id: nat, now: int, stamp: string)
      requires Valid()
      modifies this`items, this`status, this`statusDetail, this`lastErrorMessage, activeContainer
      ensures Valid()
      ensures old(activeContainer) != null ==>
        activeContainer.objects == old(activeContainer.objects) + [Encode(Record(id, "Test record " + stamp, now, None))]
      ensures old(activeContainer) != null ==>
        && items == Fetch(activeContainer.objects) && lastErrorMessage == None
        && status == old(status) && statusDetail == old(statusDetail)
      ensures old(activeContainer) == null ==>
        && status == Unavailable && statusDetail == NotInitializedDetail
        && items == old(items) && lastErrorMessage == old(lastErrorMessage)
    {
      var record := Record(id, "Test record " + stamp, now, None);
      MutateContext(objects => objects + [Encode(record)]);
    }

    /** `updateRandomRecord()`: restamps the listed record at `pick` (modulo the list), or does nothing with an empty list. */
    method UpdateRandomRecord(pick: nat, now: int, stamp: string)
      requires Valid()
      modifies this`items, this`status, this`statusDetail, this`lastErrorMessage, activeContainer
      ensures Valid()
      ensures old(items) == [] ==> unchanged(this) && (activeContainer != null ==> unchanged(activeContainer))
      ensures old(items) != [] && old(activeContainer) != null ==>
        activeContainer.objects ==
          UpdateFirst(old(activeContainer.objects), old(items)[pick % |old(items)|].id,
                      (o: StoredObject) => o.(text := Some("Updated " + stamp), updatedAt := Some(now)))
      ensures old(items) != [] && old(activeContainer) != null ==>
        && items == Fetch(activeContainer.objects) && lastErrorMessage == None
        && status == old(status) && statusDetail == old(statusDetail)
      ensures old(items) != [] && old(activeContainer) == null ==>
        && status == Unavailable && statusDetail == NotInitializedDetail
        && items == old(items) && lastErrorMessage == old(lastErrorMessage)
    {
      if items == [] {
        return;
      }
      var recordID := items[pick % |items|].id;
      var text := "Updated " + stamp;
      MutateContext(objects => UpdateFirst(objects, recordID, (o: StoredObject) => o.(text := Some(text), updatedAt := Some(now))));
    }

    /** `updateRecordText(id:text:)`: the trimmed text and the current date on the record's object. */
    method UpdateRecordText(id: nat, text: string, now: int)
      requires Valid()
      modifies this`items, this`status, this`statusDetail, this`lastErrorMessage, activeContainer
      ensures Valid()
      ensures old(activeContainer) != null ==>
        activeContainer.objects ==
          UpdateFirst(old(activeContainer.objects), id, (o: StoredObject) => o.(text := Some(TrimWhitespace(text)), updatedAt := Some(now)))
      ensures old(activeContainer) != null ==>
        && items == Fetch(activeContainer.objects) && lastErrorMessage == None
        && status == old(status) && statusDetail == old(statusDetail)
      ensures old(activeContainer) == null ==>
        && status == Unavailable && statusDetail == NotInitializedDetail
        && items == old(items) && lastErrorMessage == old(lastErrorMessage)
    {
      var trimmedText := TrimWhitespace(text);
      MutateContext(objects => UpdateFirst(objects, id, (o: StoredObject) => o.(text := Some(trimmedText), updatedAt := Some(now))));
    }

    /** `deleteAllRecords()`: the active store is emptied. */
    method DeleteAllRecords()
      requires Valid()
      modifies this`items, this`status, this`statusDetail, this`lastErrorMessage, activeContainer
      ensures Valid()
      ensures old(activeContainer) != null ==>
        && activeContainer.objects == [] && items == [] && lastErrorMessage == None
        && status == old(status) && statusDetail == old(statusDetail)
      ensures old(activeContainer) == null ==>
        && status == Unavailable && statusDetail == NotInitializedDetail
        && items == old(items) && lastErrorMessage == old(lastErrorMessage)
    {
      MutateContext(objects => []);
    }

    /**
     * `createImageRecord(note:image:)`: `imageData` is what preparing the
     * picture yields (its failure is recorded and nothing else changes).
     */
    method CreateImageRecord(note: string, imageData: Result<nat, string>, id: nat, now: int)
      requires Valid()
      modifies this`items, this`status, this`statusDetail, this`lastErrorMessage, activeContainer
      ensures Valid()
      ensures imageData.Failure? ==>
        && lastErrorMessage == Some(imageData.error) && items == old(items)
        && status == old(status) && statusDetail == old(statusDetail)
        && (activeContainer != null ==> unchanged(activeContainer))
      ensures imageData.Success? && old(activeContainer) != null ==>
        activeContainer.objects ==
          old(activeContainer.objects) + [Encode(Record(id, TrimWhitespace(note), now, Some(imageData.value)))]
      ensures imageData.Success? && old(activeContainer) != null ==>
        && items == Fetch(activeContainer.objects) && lastErrorMessage == None
        && status == old(status) && statusDetail == old(statusDetail)
      ensures imageData.Success? && old(activeContainer) == null ==>
        && status == Unavailable && statusDetail == NotInitializedDetail
        && items == old(items) && lastErrorMessage == old(lastErrorMessage)
    {
      if imageData.Failure? {
        lastErrorMessage := Some(imageData.error);
        return;
      }
      var record := Record(id, TrimWhitespace(note), now, Some(imageData.value));
      MutateContext(objects => objects + [Encode(record)]);
    }

    /** `updateImageRecord(id:note:image:)`: the trimmed note, the date and the new picture on the record's object. */
    method UpdateImageRecord(id: nat, note: string, imageData: Result<nat, string>, now: int)
      requires Valid()
      modifies this`items, this`status, this`statusDetail, this`lastErrorMessage, activeContainer
      ensures Valid()
      ensures imageData.Failure? ==>
        && lastErrorMessage == Some(imageData.error) && items == old(items)
        && status == old(status) && statusDetail == old(statusDetail)
        && (activeContainer != null ==> unchanged(activeContainer))
      ensures imageData.Success? && old(activeContainer) != null ==>
        activeContainer.objects ==
          UpdateFirst(old(activeContainer.objects), id,
                      (o: StoredObject) => o.(text := Some(TrimWhitespace(note)), updatedAt := Some(now), imageData := Some(imageData.value)))
      ensures imageData.Success? && old(activeContainer) != null ==>
        && items == Fetch(activeContainer.objects) && lastErrorMessage == None
        && status == old(status) && statusDetail == old(statusDetail)
      ensures imageData.Success? && old(activeContainer) == null ==>
        && status == Unavailable && statusDetail == NotInitializedDetail
        && items == old(items) && lastErrorMessage == old(lastErrorMessage)
    {
      if imageData.Failure? {
        lastErrorMessage := Some(imageData.error);
        return;
      }
      var trimmedNote := TrimWhitespace(note);
      var data := imageData.value;
      MutateContext(objects => UpdateFirst(objects, id, (o: StoredObject) => o.(text := Some(trimmedNote), updatedAt := Some(now), imageData := Some(data))));
    }

    /** `deleteRecord(id:)`: the record's object is deleted. */
    method DeleteRecord(id: nat)
      requires Valid()
      modifies this`items, this`status, this`statusDetail, this`lastErrorMessage, activeContainer
      ensures Valid()
      ensures old(activeContainer) != null ==> activeContainer.objects == RemoveFirst(old(activeContainer.objects), id)
      ensures old(activeContainer) != null ==>
        && items == Fetch(activeContainer.objects) && lastErrorMessage == None
        && status == old(status) && statusDetail == old(statusDetail)
      ensures old(activeContainer) == null ==>
        && status == Unavailable && statusDetail == NotInitializedDetail
        && items == old(items) && lastErrorMessage == old(lastErrorMessage)
    {
      MutateContext(objects => RemoveFirst(objects, id));
    }

    /**
     * `deleteAllCloudRecords()`: only with the cloud feature on; the CloudKit
     * store (opened if need be) is emptied and the status refreshed, or the
     * error opening it is recorded.
     */
    method DeleteAllCloudRecords(disk: Disk)
      requires Valid()
      modifies this`items, this`status, this`statusDetail, this`lastErrorMessage, this`cloudContainer, cloudContainer
      ensures Valid()
      ensures !old(isCloudFeatureEnabled) ==> unchanged(this) && (cloudContainer != null ==> unchanged(cloudContainer))
      ensures isCloudFeatureEnabled && (old(cloudContainer) != null || (currentCloudContainerID.Some? && disk.cloud.Success?)) ==>
        && cloudContainer != null && cloudContainer.objects == [] && lastErrorMessage == None
        && items == VisibleRecords() && (status, statusDetail) == Refreshed()
      ensures isCloudFeatureEnabled && old(cloudContainer) == null && currentCloudContainerID.None? ==>
        && lastErrorMessage == Some(MissingContainerError) && cloudContainer == null
        && items == old(items) && status == old(status) && statusDetail == old(statusDetail)
      ensures isCloudFeatureEnabled && old(cloudContainer) == null && currentCloudContainerID.Some? && disk.cloud.Failure? ==>
        && lastErrorMessage == Some(disk.cloud.error) && cloudContainer == null
        && items == old(items) && status == old(status) && statusDetail == old(statusDetail)
    {
      if !isCloudFeatureEnabled {
        return;
      }
      var container := EnsureCloudContainer(disk);
      if container.Failure? {
        lastErrorMessage := Some(container.error);
        return;
      }
      container.value.objects := [];
      lastErrorMessage := None;
      if storageMode == CloudStore {
        FetchRecords();
      }
      RefreshStatus();
    }
  }

  /** The settings screen's "Sync with iCloud" toggle: a change is asked for, confirmed in an alert, then applied. */
  class SyncToggle {
    const manager: CloudSyncManager
    var pendingSyncToggleValue: Option<bool>
    var showEnableSyncConfirmation: bool
    var showDisableSyncConfirmation: bool

    constructor(manager: CloudSyncManager)
      ensures this.manager == manager && pendingSyncToggleValue == None
      ensures !showEnableSyncConfirmation && !showDisableSyncConfirmation
    {
      this.manager := manager;
      pendingSyncToggleValue := None;
      showEnableSyncConfirmation := false;
      showDisableSyncConfirmation := false;
    }

    /** `requestSyncToggleChange(_:)`: a request for the value already in effect is ignored; otherwise it waits for the matching confirmation. */
    method RequestChange(requestedValue: bool)
      modifies this`pendingSyncToggleValue, this`showEnableSyncConfirmation, this`showDisableSyncConfirmation
      ensures requestedValue == manager.isUserCloudSyncEnabled ==>
        && pendingSyncToggleValue == old(pendingSyncToggleValue)
        && showEnableSyncConfirmation == old(showEnableSyncConfirmation)
        && showDisableSyncConfirmation == old(showDisableSyncConfirmation)
      ensures requestedValue != manager.isUserCloudSyncEnabled ==>
        && pendingSyncToggleValue == Some(requestedValue)
        && (requestedValue ==> showEnableSyncConfirmation && showDisableSyncConfirmation == old(showDisableSyncConfirmation))
        && (!requestedValue ==> showDisableSyncConfirmation && showEnableSyncConfirmation == old(showEnableSyncConfirmation))
    {
      if requestedValue == manager.isUserCloudSyncEnabled {
        return;
      }
      pendingSyncToggleValue := Some(requestedValue);
      if requestedValue {
        showEnableSyncConfirmation := true;
      } else {
        showDisableSyncConfirmation := true;
      }
    }

    /**
     * "Cancel" in the turn-on alert (`enabling`) or "Keep Sync On" in the
     * turn-off alert: the pending value is dropped, and tapping the button
     * dismisses that alert.
     */
    method CancelPending(enabling: bool)
      modifies this`pendingSyncToggleValue, this`showEnableSyncConfirmation, this`showDisableSyncConfirmation
      ensures pendingSyncToggleValue == None
      ensures enabling ==> !showEnableSyncConfirmation && showDisableSyncConfirmation == old(showDisableSyncConfirmation)
      ensures !enabling ==> !showDisableSyncConfirmation && showEnableSyncConfirmation == old(showEnableSyncConfirmation)
    {
      if enabling {
        showEnableSyncConfirmation := false;
      } else {
        showDisableSyncConfirmation := false;
      }
      pendingSyncToggleValue := None;
    }

    /**
     * "Turn On" or "Turn Off", which tap `applyPendingSyncToggle(_:)`: the
     * button dismisses its alert; only a confirmation of the pending value
     * reaches the manager, and it clears the pending value.
     */
    method ApplyPending(value: bool, disk: Disk)
      requires manager.Valid()
      modifies this`pendingSyncToggleValue, this`showEnableSyncConfirmation, this`showDisableSyncConfirmation
      modifies manager`activeContainer, manager`storageMode, manager`items, manager`status, manager`statusDetail
      modifies manager`lastErrorMessage, manager`localContainer, manager`cloudContainer, manager`preferences
      modifies manager`isUserCloudSyncEnabled, manager.localContainer, manager.cloudContainer
      ensures manager.Valid()
      ensures value ==> !showEnableSyncConfirmation && showDisableSyncConfirmation == old(showDisableSyncConfirmation)
      ensures !value ==> !showDisableSyncConfirmation && showEnableSyncConfirmation == old(showEnableSyncConfirmation)
      ensures old(pendingSyncToggleValue) != Some(value) ==>
        && pendingSyncToggleValue == old(pendingSyncToggleValue) && unchanged(manager)
        && (manager.localContainer != null ==> unchanged(manager.localContainer))
        && (manager.cloudContainer != null ==> unchanged(manager.cloudContainer))
      ensures old(pendingSyncToggleValue) == Some(value) ==> pendingSyncToggleValue == None
      ensures && old(pendingSyncToggleValue) == Some(value)
              && (!old(manager.isCloudFeatureEnabled) || old(manager.currentAppID).None? || value == old(manager.isUserCloudSyncEnabled))
        ==>
        && unchanged(manager)
        && (manager.localContainer != null ==> unchanged(manager.localContainer))
        && (manager.cloudContainer != null ==> unchanged(manager.cloudContainer))
      ensures && old(pendingSyncToggleValue) == Some(value)
              && old(manager.isCloudFeatureEnabled) && old(manager.currentAppID).Some? && value != old(manager.isUserCloudSyncEnabled)
        ==>
        && manager.preferences == old(manager.preferences)[PreferenceKey(old(manager.currentAppID).value) := value]
        && manager.isUserCloudSyncEnabled == value
        && (value && (old(manager.cloudContainer) != null || (manager.currentCloudContainerID.Some? && disk.cloud.Success?)) ==>
              && manager.cloudContainer != null && manager.storageMode == CloudStore
              && manager.cloudContainer.objects ==
                   MigratedObjects(old(manager.MigrationSource(manager.cloudContainer)),
                                   if old(manager.cloudContainer) != null then old(manager.cloudContainer.objects) else disk.cloud.value)
              && Holds(manager.localContainer, old(OpenObjects(manager.localContainer)))
              && manager.items == manager.VisibleRecords() && (manager.status, manager.statusDetail) == manager.Refreshed()
              && manager.lastErrorMessage == old(manager.lastErrorMessage))
        && (value && old(manager.cloudContainer) == null && (manager.currentCloudContainerID.None? || disk.cloud.Failure?) ==>
              && manager.cloudContainer == null && Holds(manager.localContainer, AfterOpening(old(OpenObjects(manager.localContainer)), disk.local))
              && (old(manager.localContainer) != null || disk.local.Success? ==>
                    manager.Shows(LocalStore, LocalFallback, UnavailableDetail,
                          Some(if manager.currentCloudContainerID.None? then MissingContainerError else disk.cloud.error)))
              && (old(manager.localContainer) == null && disk.local.Failure? ==>
                    manager.Shows(NoStore, Unavailable, LocalFailedDetail, Some(disk.local.error)) && manager.items == []))
        && (!value ==> Holds(manager.cloudContainer, old(OpenObjects(manager.cloudContainer))))
        && (!value && (old(manager.localContainer) != null || disk.local.Success?) ==>
              && manager.localContainer != null
              && manager.localContainer.objects ==
                   MigratedObjects(old(manager.MigrationSource(manager.localContainer)),
                                   if old(manager.localContainer) != null then old(manager.localContainer.objects) else disk.local.value)
              && manager.Shows(LocalStore, DisabledByUser, UserOffDetail, old(manager.lastErrorMessage)))
        && (!value && old(manager.localContainer) == null && disk.local.Failure? ==>
              manager.Shows(NoStore, Unavailable, LocalFailedDetail, Some(disk.local.error)) && manager.items == [])
    {
      if value {
        showEnableSyncConfirmation := false;
      } else {
        showDisableSyncConfirmation := false;
      }
      if pendingSyncToggleValue != Some(value) {
        return;
      }
      manager.SetUserCloudSyncEnabled(value, disk);
      pendingSyncToggleValue := None;
    }
  }
}
