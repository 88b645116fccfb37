/** The browser's localStorage as seen by the front end: a string-to-string
    map shared by every component, plus the number of "storage" events the
    components have dispatched so that other views re-read it. */
module BrowserStorage {
  import opened JsText

  const HasCheckedKey := "hasCheckedCreditScore"
  const CreditScoreKey := "creditScore"
  const UserKey := "user"

  class Storage {
    var items: map<string, string>
    var events: nat

    constructor (initial: map<string, string>)
      ensures items == initial && events == 0
    {
      items := initial;
      events := 0;
    }

    /** localStorage.getItem: null (None) for a missing key. */
    function GetItem(key: string): (r: Option<string>)
      reads this
      ensures r.Some? <==> key in items
      ensures r.Some? ==> r.value == items[key]
    {
      if key in items then Some(items[key]) else None
    }

    method SetItem(key: string, value: string)
      modifies this
      ensures items == old(items)[key := value] && events == old(events)
    {
      items := items[key := value];
    }

    method RemoveItem(key: string)
      modifies this
      ensures items == old(items) - {key} && events == old(events)
    {
      items := items - {key};
    }

    /** window.dispatchEvent(new Event("storage")) */
    method Broadcast()
      modifies this
      ensures items == old(items) && events == old(events) + 1
    {
      events := events + 1;
    }
  }
}
