/** The three UI stores and their persistence in the browser's local storage,
    a string-to-string map here. */
module Settings {
  import opened Types

  const ApiKeyItem := "googleApiKey"
  const WorkAddressItem := "workAddress"
  const InitialActiveTab := "Check Commute"

  /** The values of the three stores. */
  datatype Stores = Stores(googleApiKey: string, workAddress: string, activeTab: string)

  /** Which `getItem` call, if any, throws while the settings are loaded. */
  datatype ReadFault = NoReadFault | ApiKeyReadThrows | WorkAddressReadThrows

  /** `localStorage.getItem(key)`; `None` is null. */
  function GetItem(storage: map<string, string>, key: string): (r: Option<string>)
    ensures r.Some? <==> key in storage
    ensures r.Some? ==> r.value == storage[key]
  {
    if key in storage then Some(storage[key]) else None
  }

  /** `if (stored) store.set(stored)`: only a non-null, non-empty value is loaded. */
  function LoadIfSet(current: string, stored: Option<string>): (r: string)
    ensures r == current || (stored.Some? && r == stored.value)
    ensures r != current ==> r != ""
    ensures stored.Some? && stored.value != "" ==> r == stored.value
  {
    match stored
    case Some(v) => if v != "" then v else current
    case None => current
  }

  /** The stores after `initializeSettings`: the API key is read first; a
      throwing read ends the load, and what was set before it stays set. */
  function Initialized(s: Stores, storage: map<string, string>, fault: ReadFault): (r: Stores)
    ensures r.activeTab == s.activeTab
    ensures fault == ApiKeyReadThrows ==> r == s
    ensures fault != ApiKeyReadThrows ==>
      r.googleApiKey == LoadIfSet(s.googleApiKey, GetItem(storage, ApiKeyItem))
    ensures fault == NoReadFault ==>
      r.workAddress == LoadIfSet(s.workAddress, GetItem(storage, WorkAddressItem))
    ensures fault != NoReadFault ==> r.workAddress == s.workAddress
  {
    var withKey := s.(googleApiKey := LoadIfSet(s.googleApiKey, GetItem(storage, ApiKeyItem)));
    match fault
    case ApiKeyReadThrows => s
    case WorkAddressReadThrows => withKey
    case NoReadFault => withKey.(workAddress := LoadIfSet(s.workAddress, GetItem(storage, WorkAddressItem)))
  }

  /** Loading twice from the same storage changes nothing the second time. */
  lemma InitializeIdempotent(s: Stores, storage: map<string, string>, fault: ReadFault)
    ensures Initialized(Initialized(s, storage, fault), storage, fault) == Initialized(s, storage, fault)
  {
  }

  /** A non-empty value saved under an item is what the next load restores,
      whatever the stores held before. */
  lemma SaveThenLoad(t: Stores, storage: map<string, string>, key: string, address: string)
    requires key != "" && address != ""
    ensures var storage' := storage[ApiKeyItem := key][WorkAddressItem := address];
      Initialized(t, storage', NoReadFault) == Stores(key, address, t.activeTab)
  {
    var storage' := storage[ApiKeyItem := key][WorkAddressItem := address];
    assert ApiKeyItem != WorkAddressItem;
    assert GetItem(storage', ApiKeyItem) == Some(key);
  }

  /** The stores and the storage they persist to. */
  class SettingsStore {
    var storage: map<string, string>
    var googleApiKey: string
    var workAddress: string
    var activeTab: string

    function State(): Stores
      reads this
    {
      Stores(googleApiKey, workAddress, activeTab)
    }

    /** The stores start empty, with "Check Commute" as the active tab. */
    constructor (storage: map<string, string>)
      ensures this.storage == storage
      ensures State() == Stores("", "", InitialActiveTab)
    {
      this.storage := storage;
      googleApiKey, workAddress, activeTab := "", "", InitialActiveTab;
    }

    /** `initializeSettings`; a throwing read is caught and logged. */
    method InitializeSettings(fault: ReadFault)
      modifies this
      ensures storage == old(storage)
      ensures State() == Initialized(old(State()), storage, fault)
    {
      if fault == ApiKeyReadThrows {
        return;
      }
      var storedApiKey := GetItem(storage, ApiKeyItem);
      if storedApiKey.Some? && storedApiKey.value != "" {
        googleApiKey := storedApiKey.value;
      }
      if fault == WorkAddressReadThrows {
        return;
      }
      var storedWorkAddress := GetItem(storage, WorkAddressItem);
      if storedWorkAddress.Some? && storedWorkAddress.value != "" {
        workAddress := storedWorkAddress.value;
      }
    }

    /** `saveGoogleApiKey`: storage first, then the store; when `setItem`
        throws, nothing changes and the error is caught. */
    method SaveGoogleApiKey(key: string, setItemThrows: bool)
      modifies this
      ensures setItemThrows ==> storage == old(storage) && State() == old(State())
      ensures !setItemThrows ==>
        storage == old(storage)[ApiKeyItem := key]
        && State() == old(State()).(googleApiKey := key)
    {
      if setItemThrows {
        return;
      }
      storage := storage[ApiKeyItem := key];
      googleApiKey := key;
    }

    /** `saveWorkAddress`, the same for the work address. */
    method SaveWorkAddress(address: string, setItemThrows: bool)
      modifies this
      ensures setItemThrows ==> storage == old(storage) && State() == old(State())
      ensures !setItemThrows ==>
        storage == old(storage)[WorkAddressItem := address]
        && State() == old(State()).(workAddress := address)
    {
      if setItemThrows {
        return;
      }
      storage := storage[WorkAddressItem := address];
      workAddress := address;
    }
  }
}
