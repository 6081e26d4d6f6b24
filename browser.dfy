/**
 * The data the pages exchange with the browser: the tribute record
 * (`TributeCardData` of components/TributeCardComponent.tsx), the value a
 * local-storage slot holds once `JSON.parse` has looked at it, the
 * `localStorage` facility itself, and router navigations.
 */
module Browser {
  import opened Wrappers

  datatype AttachmentType = Picture

  /** One tribute card. `timestamp` is milliseconds since the epoch. */
  datatype Tribute = Tribute(
    id: string,
    name: string,
    message: string,
    timestamp: int,
    relationship: string,
    attachmentType: Option<AttachmentType>,
    attachmentValue: Option<string>)

  /** `NewTributeDataFromInput`, what the tribute input hands on: the
      message, an optional attachment and, optionally, the sender's name. */
  datatype NewTributeInput = NewTributeInput(
    message: string,
    attachmentType: Option<AttachmentType>,
    attachmentValue: Option<string>,
    senderName: Option<string>)

  /**
   * What a storage slot holds, as `JSON.parse` sees it:
   *  - Blank: the empty string, which every reader treats as nothing stored;
   *  - Unparsable: text `JSON.parse` rejects;
   *  - TributeList: a JSON array of tribute records;
   *  - JsonObject: any other JSON value that parses (an object, `null`, a
   *    number, ...). Its `fullName` and `relationship` are the two fields
   *    the session check reads, "" when absent. Records whose fields hold
   *    other JSON types (a number, `true`) are not modelled.
   */
  datatype StoredValue =
    | Blank
    | Unparsable
    | TributeList(records: seq<Tribute>)
    | JsonObject(fullName: string, relationship: string)

  /** `router.replace` and `router.push` targets. */
  datatype Route = Home | LoginRoute
  datatype Navigation = Replace(to: Route) | Push(to: Route)

  /** The browser's `localStorage`: a string-keyed map of slots. */
  class LocalStorage {
    var items: map<string, StoredValue>

    constructor (initial: map<string, StoredValue>)
      ensures items == initial
    {
      items := initial;
    }

    /** `getItem`: the slot's value, `None` for a key never set. */
    function GetItem(key: string): (v: Option<StoredValue>)
      reads this
      ensures v.Some? <==> key in items
      ensures v.Some? ==> v.value == items[key]
    {
      if key in items then Some(items[key]) else None
    }

    /** `setItem`; `accepted` is false when the browser throws instead
        (quota exceeded, storage disabled), and then nothing changes. */
    method SetItem(key: string, value: StoredValue, accepted: bool)
      modifies this
      ensures items == if accepted then old(items)[key := value] else old(items)
    {
      if accepted {
        items := items[key := value];
      }
    }

    /** `removeItem`. */
    method RemoveItem(key: string)
      modifies this
      ensures items == old(items) - {key}
    {
      items := items - {key};
    }
  }
}
