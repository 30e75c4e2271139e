/**
  The browser services the core talks to: the persistent, string-keyed
  `localStorage` and the router whose `push` navigates.  A JSON document is
  kept as a tree; its text form (what `JSON.stringify` writes and
  `JSON.parse` reads) is not part of this model.
 */
module Storage {
  import opened Base

  /** A JSON value as `JSON.stringify` writes it (numbers are not needed by the core). */
  datatype Json =
    | JNull
    | JBool(b: bool)
    | JStr(s: string)
    | JArr(elems: seq<Json>)
    | JObj(fields: map<string, Json>)

  /**
    What a storage key holds: a string written as it is (`setItem(k, s)`),
    or the text of a JSON document (`setItem(k, JSON.stringify(d))`).
   */
  datatype Entry = Text(s: string) | Doc(json: Json)

  /** `obj[key]` when it is a string. */
  function StrField(obj: map<string, Json>, key: string): (r: Option<string>)
    ensures r.Some? <==> key in obj && obj[key].JStr?
    ensures r.Some? ==> obj[key] == JStr(r.value)
  {
    if key in obj && obj[key].JStr? then Some(obj[key].s) else None
  }

  /** `obj[key]` when it is a boolean. */
  function BoolField(obj: map<string, Json>, key: string): (r: Option<bool>)
    ensures r.Some? <==> key in obj && obj[key].JBool?
    ensures r.Some? ==> obj[key] == JBool(r.value)
  {
    if key in obj && obj[key].JBool? then Some(obj[key].b) else None
  }

  /**
    An optional string property: absent (JSON.stringify drops `undefined`)
    reads as `Some(None)`, a string as `Some(Some(s))`, anything else is malformed.
   */
  function OptStrField(obj: map<string, Json>, key: string): (r: Option<Option<string>>)
    ensures key !in obj ==> r == Some(None)
    ensures key in obj && obj[key].JStr? ==> r == Some(Some(obj[key].s))
    ensures key in obj && !obj[key].JStr? ==> r == None
  {
    if key !in obj then Some(None)
    else if obj[key].JStr? then Some(Some(obj[key].s))
    else None
  }

  /** Adds `key: s` to an object when the optional string is present. */
  function WithOptStr(obj: map<string, Json>, key: string, v: Option<string>): (r: map<string, Json>)
    ensures OptStrField(r, key) == Some(v)
    ensures forall k :: k in obj && k != key ==> k in r && r[k] == obj[k]
    ensures forall k :: k in r && k != key ==> k in obj
  {
    match v
    case None => obj - {key}
    case Some(s) => obj[key := JStr(s)]
  }

  /**
    A `Date` in a JSON document: `JSON.stringify` writes it as a string, and
    `new Date(text)` revives it.  The text here is the millisecond count in
    decimal (the calendar form of an ISO 8601 string is not modelled).
   */
  function DateJson(millis: nat): Json {
    JStr(Decimal(millis))
  }

  /** `new Date(value)` on a stored date; anything that is not such a text is no date. */
  function ReviveDate(j: Json): Option<nat> {
    if j.JStr? then ParseDecimal(j.s) else None
  }

  /** Reviving a stored date gives back the same instant. */
  lemma DateRoundTrip(millis: nat)
    ensures ReviveDate(DateJson(millis)) == Some(millis)
  {
    DecimalRoundTrip(millis);
  }

  /** The browser's `localStorage`: one string-keyed map shared by every page. */
  class LocalStore {
    var items: map<string, Entry>

    constructor (initial: map<string, Entry>)
      ensures items == initial
    {
      items := initial;
    }

    /** `localStorage.getItem(key)`; `None` is `null`. */
    function GetItem(key: string): (r: Option<Entry>)
      reads this
      ensures r.Some? <==> key in items
      ensures r.Some? ==> r.value == items[key]
    {
      if key in items then Some(items[key]) else None
    }

    method SetItem(key: string, value: Entry)
      modifies this
      ensures items == old(items)[key := value]
    {
      items := items[key := value];
    }

    method RemoveItem(key: string)
      modifies this
      ensures items == old(items) - {key}
    {
      items := items - {key};
    }
  }

  /** `router.push`, kept as the list of routes pushed so far. */
  class Router {
    var pushed: seq<string>

    constructor ()
      ensures pushed == []
    {
      pushed := [];
    }

    method Push(route: string)
      modifies this
      ensures pushed == old(pushed) + [route]
    {
      pushed := pushed + [route];
    }
  }
}
