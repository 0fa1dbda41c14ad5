/** Local persistence of the single project record, with 24-hour expiry.
    The browser's key-value store is modelled as a map that the operations
    update in place; its I/O failures (a failing get, set or del) are parameters. */
module Storage {
  import opened Types

  const STORAGE_KEY: string := "pdf-correction-project"
  /** Retention window: 24 hours in milliseconds. */
  const EXPIRY_MS: int := 24 * 60 * 60 * 1000
  const SAVE_ERROR: string := "Storage quota exceeded or error."

  /** A record older than the retention window (strictly). */
  predicate Expired(now: int, timestamp: int)
  {
    now - timestamp > EXPIRY_MS
  }

  /** The boundary is kept: a record exactly 24 hours old is still loaded,
      one a millisecond older is not. */
  lemma ExpiryBoundary(timestamp: int)
    ensures EXPIRY_MS == 86_400_000
    ensures !Expired(timestamp + 86_400_000, timestamp)
    ensures Expired(timestamp + 86_400_001, timestamp)
  {
  }

  /** The key-value store (get/set/del over string keys). */
  class KeyValueStore {
    var entries: map<string, ProjectData>

    constructor ()
      ensures entries == map[]
    {
      entries := map[];
    }
  }

  datatype SaveOutcome = Saved | SaveError(message: string)

  /** saveProject: store the record under the fixed key; a failing write is
      reported as an error and leaves the store as it was. */
  method SaveProject(store: KeyValueStore, data: ProjectData, writeFails: bool)
    returns (r: SaveOutcome)
    modifies store
    ensures writeFails ==> r == SaveError(SAVE_ERROR) && store.entries == old(store.entries)
    ensures !writeFails ==> r == Saved && store.entries == old(store.entries)[STORAGE_KEY := data]
  {
    if writeFails {
      r := SaveError(SAVE_ERROR);
    } else {
      store.entries := store.entries[STORAGE_KEY := data];
      r := Saved;
    }
  }

  /** What loadProject yields for store contents `entries` at wall-clock time `now`:
      nothing stored, a failing read and an expired record all give None. */
  function LoadResult(entries: map<string, ProjectData>, now: int, readFails: bool)
    : (r: Option<ProjectData>)
    ensures r.Some? <==>
              !readFails && STORAGE_KEY in entries && !Expired(now, entries[STORAGE_KEY].timestamp)
    ensures r.Some? ==> r.value == entries[STORAGE_KEY]
  {
    if readFails || STORAGE_KEY !in entries then None
    else if Expired(now, entries[STORAGE_KEY].timestamp) then None
    else Some(entries[STORAGE_KEY])
  }

  /** The store after loadProject: an expired record is deleted unless the
      delete fails (that failure is caught, so the load still yields None);
      nothing else changes. */
  function AfterLoad(entries: map<string, ProjectData>, now: int, readFails: bool, deleteFails: bool)
    : (r: map<string, ProjectData>)
    ensures forall k :: k != STORAGE_KEY ==> (k in r <==> k in entries)
    ensures forall k :: k in r ==> k in entries && r[k] == entries[k]
    ensures STORAGE_KEY !in r <==>
              || STORAGE_KEY !in entries
              || (!readFails && !deleteFails && Expired(now, entries[STORAGE_KEY].timestamp))
  {
    if !readFails && !deleteFails && STORAGE_KEY in entries && Expired(now, entries[STORAGE_KEY].timestamp)
    then entries - {STORAGE_KEY}
    else entries
  }

  /** A record saved and then loaded within the retention window comes back unchanged. */
  lemma SavedRecordLoads(entries: map<string, ProjectData>, data: ProjectData, now: int, deleteFails: bool)
    requires !Expired(now, data.timestamp)
    ensures LoadResult(entries[STORAGE_KEY := data], now, false) == Some(data)
    ensures AfterLoad(entries[STORAGE_KEY := data], now, false, deleteFails) == entries[STORAGE_KEY := data]
  {
  }

  /** After a clear, nothing is loaded. */
  lemma ClearedStoreLoadsNothing(entries: map<string, ProjectData>, now: int, readFails: bool)
    ensures LoadResult(entries - {STORAGE_KEY}, now, readFails) == None
  {
  }

  /** Once a record has expired, no later load returns it, whether or not the
      delete of the load that found it expired succeeded. */
  lemma ExpiredStaysUnloadable(entries: map<string, ProjectData>, now: int, later: int,
                               readFails: bool, deleteFails: bool, laterReadFails: bool)
    requires STORAGE_KEY in entries && Expired(now, entries[STORAGE_KEY].timestamp)
    requires now <= later
    ensures LoadResult(AfterLoad(entries, now, readFails, deleteFails), later, laterReadFails) == None
  {
  }

  /** loadProject at wall-clock time `now`; every failure is caught and yields None. */
  method LoadProject(store: KeyValueStore, now: int, readFails: bool, deleteFails: bool)
    returns (r: Option<ProjectData>)
    modifies store
    ensures r == LoadResult(old(store.entries), now, readFails)
    ensures store.entries == AfterLoad(old(store.entries), now, readFails, deleteFails)
  {
    if readFails {
      return None;
    }
    if STORAGE_KEY !in store.entries {
      return None;
    }
    var data := store.entries[STORAGE_KEY];
    if Expired(now, data.timestamp) {
      if !deleteFails {
        store.entries := store.entries - {STORAGE_KEY};
      }
      return None;
    }
    r := Some(data);
  }

  /** clearProject: delete the record. It catches nothing, so a failing delete
      propagates to the caller (cleared == false) and the record stays. */
  method ClearProject(store: KeyValueStore, deleteFails: bool) returns (cleared: bool)
    modifies store
    ensures cleared == !deleteFails
    ensures cleared ==> store.entries == old(store.entries) - {STORAGE_KEY}
    ensures !cleared ==> store.entries == old(store.entries)
  {
    if deleteFails {
      return false;
    }
    store.entries := store.entries - {STORAGE_KEY};
    cleared := true;
  }

  /** Save then load within the window returns the saved record; after a
      clear, nothing is loaded. */
  method SaveLoadClear(data: ProjectData, now: int)
    returns (loaded: Option<ProjectData>, afterClear: Option<ProjectData>)
    requires !Expired(now, data.timestamp)
    ensures loaded == Some(data) && afterClear == None
  {
    var store := new KeyValueStore();
    var saved := SaveProject(store, data, false);
    loaded := LoadProject(store, now, false, false);
    var cleared := ClearProject(store, false);
    afterClear := LoadProject(store, now, false, false);
  }
}
