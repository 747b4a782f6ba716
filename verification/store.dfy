/** The extension's shared key-value store (`chrome.storage.local`) and the
    messages the scripts exchange over `chrome.runtime`. */
module Extension {
  import opened Wrappers
  import opened OrderData

  /** One entry of the newer DoorDash batch: an order uuid with the `data` of
      its post-checkout and receipt lookups (None when the reply had none). */
  datatype DetailEntry = DetailEntry(uuid: Option<string>, postCheckoutData: Option<JsonObject>, orderReceiptData: Option<JsonObject>)

  /** What a `storeDoorDashData` message carries: full orders (older script) or
      detail entries (newer script). */
  datatype DoorDashBatch = ListedOrders(orders: seq<DoorDashRaw>) | DetailedOrders(entries: seq<DetailEntry>)

  datatype StoredValue =
    | GrubhubOrders(grubhub: seq<GrubhubRaw>)
    | DoorDashOrders(doordash: DoorDashBatch)
    | Flag(flag: bool)

  const GrubhubKey: string := "grubhubOrderResults"
  const DoorDashKey: string := "doordashOrderResults"
  const FetchingKey: string := "fetching"

  /** `chrome.storage.local`: a map from keys to stored values. */
  class ExtensionStore {
    var entries: map<string, StoredValue>

    constructor ()
      ensures entries == map[]
    {
      entries := map[];
    }

    function Get(key: string): (v: Option<StoredValue>)
      reads this
      ensures v.Some? <==> key in entries
      ensures v.Some? ==> v.value == entries[key]
    {
      if key in entries then Some(entries[key]) else None
    }

    /** `chrome.storage.local.set({key: value})`. */
    method Set(key: string, value: StoredValue)
      modifies this
      ensures entries == old(entries)[key := value]
    {
      entries := entries[key := value];
    }

    /** `chrome.storage.local.remove(key)`. */
    method Remove(key: string)
      modifies this
      ensures entries == old(entries) - {key}
    {
      entries := entries - {key};
    }
  }

  /** `result.grubhubOrderResults || []`. */
  function StoredGrubhubOrders(entries: map<string, StoredValue>): (orders: seq<GrubhubRaw>)
    ensures GrubhubKey !in entries ==> orders == []
    ensures GrubhubKey in entries && entries[GrubhubKey].GrubhubOrders? ==> orders == entries[GrubhubKey].grubhub
  {
    if GrubhubKey in entries && entries[GrubhubKey].GrubhubOrders? then entries[GrubhubKey].grubhub else []
  }

  /** A `chrome.runtime` message, by its `action` (or `status`) tag. */
  datatype Message =
    | FetchGrubhubData(token: Option<string>, uuid: Option<string>)
    | FetchDoorDashData(headers: Option<JsonObject>)
    | GetOrderInsights
    | StoreDoorDashData(batch: Option<DoorDashBatch>)
    | StoreGrubhubData(grubhubOrders: seq<GrubhubRaw>)
    | FetchData
    | DataStored
    | OtherAction(action: string)

  /** What a listener passes to `sendResponse`, or that it never does. */
  datatype Response =
    | NoResponse
    | Success
    | Failure(error: Error)
    | StorageFailure
    | Insights(grubhubOrderResults: Option<StoredValue>, doordashOrderResults: Option<StoredValue>)
}
