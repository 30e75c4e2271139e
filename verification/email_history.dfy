/**
  `EmailHistory`: the panel that keeps the last ten send attempts, newest
  first, in component state and under the storage key `email_history`.
 */
module EmailHistory {
  import opened Base
  import opened Storage
  import History

  const HistoryKey := "email_history"

  /** What the page passes to `addToHistory` (a record without `id` and `timestamp`). */
  datatype EmailInput = EmailInput(to: string, subject: string, success: bool, error: Option<string>)

  /** One history record; `timestamp` is a `Date`, as milliseconds since the epoch. */
  datatype EmailItem = EmailItem(
    id: string, to: string, subject: string, success: bool, timestamp: nat, error: Option<string>)

  /** The record `addToHistory` makes at time `now`: the id is `Date.now().toString()`. */
  function Stamp(input: EmailInput, now: nat): (item: EmailItem)
    ensures item.to == input.to && item.subject == input.subject
    ensures item.success == input.success && item.error == input.error
    ensures ParseDecimal(item.id) == Some(now) && item.timestamp == now
  {
    DecimalRoundTrip(now);
    EmailItem(Decimal(now), input.to, input.subject, input.success, now, input.error)
  }

  /** The JSON object `JSON.stringify` writes for a record (an absent `error` is left out). */
  function Encode(item: EmailItem): Json {
    JObj(WithOptStr(
      map["id" := JStr(item.id), "to" := JStr(item.to), "subject" := JStr(item.subject),
          "success" := JBool(item.success), "timestamp" := DateJson(item.timestamp)],
      "error", item.error))
  }

  /** A stored record read back, its timestamp revived; `None` when it does not have the shape. */
  function Decode(j: Json): Option<EmailItem> {
    if !j.JObj? then None
    else
      var o := j.fields;
      var id, to, subject := StrField(o, "id"), StrField(o, "to"), StrField(o, "subject");
      var success, error := BoolField(o, "success"), OptStrField(o, "error");
      var time := if "timestamp" in o then ReviveDate(o["timestamp"]) else None;
      if id.Some? && to.Some? && subject.Some? && success.Some? && error.Some? && time.Some? then
        Some(EmailItem(id.value, to.value, subject.value, success.value, time.value, error.value))
      else None
  }

  /** Every field of a stored record reads back as written; an absent `error` as absent. */
  lemma EncodeFields(item: EmailItem)
    ensures StrField(Encode(item).fields, "id") == Some(item.id)
    ensures StrField(Encode(item).fields, "to") == Some(item.to)
    ensures StrField(Encode(item).fields, "subject") == Some(item.subject)
    ensures BoolField(Encode(item).fields, "success") == Some(item.success)
    ensures OptStrField(Encode(item).fields, "error") == Some(item.error)
    ensures "timestamp" in Encode(item).fields
    ensures Encode(item).fields["timestamp"] == DateJson(item.timestamp)
  {
    var required := map["id" := JStr(item.id), "to" := JStr(item.to), "subject" := JStr(item.subject),
                        "success" := JBool(item.success), "timestamp" := DateJson(item.timestamp)];
    assert "id" in required && "to" in required && "subject" in required;
    assert "success" in required && "timestamp" in required;
  }

  lemma DecodeEncode(item: EmailItem)
    ensures Decode(Encode(item)) == Some(item)
  {
    DateRoundTrip(item.timestamp);
    EncodeFields(item);
  }

  /** The stored form of the whole list: a JSON array of records, in list order. */
  function EncodeAll(items: seq<EmailItem>): (j: Json)
    ensures j.JArr? && |j.elems| == |items|
    ensures forall i :: 0 <= i < |items| ==> j.elems[i] == Encode(items[i])
  {
    JArr(seq(|items|, i requires 0 <= i < |items| => Encode(items[i])))
  }

  /** Decodes every element; one malformed element makes the whole list unreadable. */
  function DecodeEach(elems: seq<Json>): Option<seq<EmailItem>> {
    if elems == [] then Some([])
    else match (Decode(elems[0]), DecodeEach(elems[1..]))
      case (Some(x), Some(rest)) => Some([x] + rest)
      case _ => None
  }

  /** A list whose head and tail decode decodes to their join. */
  lemma DecodeEachCons(elems: seq<Json>, x: EmailItem, rest: seq<EmailItem>)
    requires |elems| > 0 && Decode(elems[0]) == Some(x) && DecodeEach(elems[1..]) == Some(rest)
    ensures DecodeEach(elems) == Some([x] + rest)
  {
  }

  /** Every record of a stored list decodes, so the list reads back whole and in order. */
  lemma {:induction false} DecodeEachEncoded(items: seq<EmailItem>)
    ensures DecodeEach(EncodeAll(items).elems) == Some(items)
  {
    if items != [] {
      var elems := EncodeAll(items).elems;
      assert elems[0] == Encode(items[0]);
      assert elems[1..] == EncodeAll(items[1..]).elems;
      DecodeEncode(items[0]);
      DecodeEachEncoded(items[1..]);
      DecodeEachCons(elems, items[0], items[1..]);
      assert [items[0]] + items[1..] == items;
    }
  }

  /** What the mount effect finds under `email_history`. */
  datatype Saved = NothingSaved | Restored(items: seq<EmailItem>) | Unreadable

  /**
    The mount effect's reading of the stored value: nothing (or the empty
    string) leaves the list alone; a list of well-formed records is revived.
    Everything else is `Unreadable`: a value that is not an array (where
    `JSON.parse(...).map(...)` throws), but also records with a missing or
    mistyped field, or JSON kept as plain text, which the source would load;
    the model does not load those.  An array with a `null` element is
    unreadable here as it is in the source, where `item.timestamp` throws.
    Fields outside the record shape are dropped.
   */
  function ReadSaved(saved: Option<Entry>): Saved {
    match saved
    case None => NothingSaved
    case Some(Text(s)) => if s == "" then NothingSaved else Unreadable
    case Some(Doc(j)) =>
      if !j.JArr? then Unreadable
      else match DecodeEach(j.elems)
        case Some(items) => Restored(items)
        case None => Unreadable
  }

  /** What one component instance persists is exactly what the next one loads. */
  lemma SavedListReloads(items: seq<EmailItem>)
    ensures ReadSaved(Some(Doc(EncodeAll(items)))) == Restored(items)
  {
    DecodeEachEncoded(items);
  }

  class EmailHistory {
    var entries: seq<EmailItem>
    const store: LocalStore

    /** The component's first render: an empty list. */
    constructor (store: LocalStore)
      ensures this.store == store && entries == []
    {
      this.store := store;
      entries := [];
    }

    /** The list in storage is the list in memory. */
    ghost predicate Persisted()
      reads this, store
    {
      HistoryKey in store.items && store.items[HistoryKey] == Doc(EncodeAll(entries))
    }

    /**
      The mount effect.  `ok` is false for an unreadable stored
      value (see `ReadSaved`); the list is then left as it was.
     */
    method LoadOnMount() returns (ok: bool)
      modifies this
      ensures ok <==> !ReadSaved(store.GetItem(HistoryKey)).Unreadable?
      ensures ReadSaved(store.GetItem(HistoryKey)).Restored? ==>
        entries == ReadSaved(store.GetItem(HistoryKey)).items
      ensures !ReadSaved(store.GetItem(HistoryKey)).Restored? ==> entries == old(entries)
    {
      var saved := ReadSaved(store.GetItem(HistoryKey));
      match saved
      case NothingSaved => ok := true;
      case Restored(items) => entries := items; ok := true;
      case Unreadable => ok := false;
    }

    /**
      `addToHistory(input)` at time `now`: prepends the stamped record, keeps
      ten, and writes the whole list back under `email_history`.
     */
    method Add(input: EmailInput, now: nat)
      modifies this, store
      ensures entries == History.Prepend(old(entries), Stamp(input, now))
      ensures store.items == old(store.items)[HistoryKey := Doc(EncodeAll(entries))]
      ensures Persisted()
    {
      entries := History.Prepend(entries, Stamp(input, now));
      store.SetItem(HistoryKey, Doc(EncodeAll(entries)));
    }

    /** What the component renders: nothing for an empty list, otherwise the list. */
    function View(): (r: Option<seq<EmailItem>>)
      reads this
      ensures r == None <==> entries == []
      ensures r.Some? ==> r.value == entries
    {
      History.Panel(entries)
    }
  }

  function ScenarioInput(k: nat): EmailInput {
    EmailInput("a@x.com", "S" + Decimal(k), true, None)
  }

  /** The records stamped by the first `k` scenario sends, oldest first. */
  ghost function ScenarioAdds(k: nat): (adds: seq<EmailItem>)
    ensures |adds| == k
  {
    if k == 0 then [] else ScenarioAdds(k - 1) + [Stamp(ScenarioInput(k - 1), k - 1)]
  }

  lemma {:induction false} ScenarioAddsAt(k: nat, i: nat)
    requires i < k
    ensures ScenarioAdds(k)[i] == Stamp(ScenarioInput(i), i)
  {
    assert ScenarioAdds(k) == ScenarioAdds(k - 1) + [Stamp(ScenarioInput(k - 1), k - 1)];
    if i < k - 1 {
      ScenarioAddsAt(k - 1, i);
    }
  }

  /**
    Eleven sends with subjects `S0` … `S10` into an empty history: ten
    records remain, `S10` first and `S1` last; `S0` was evicted.
   */
  method ElevenSends() returns (subjects: seq<string>)
    ensures |subjects| == History.Capacity
    ensures forall j :: 0 <= j < |subjects| ==> subjects[j] == "S" + Decimal(10 - j)
  {
    var store := new LocalStore(map[]);
    var h := new EmailHistory(store);
    var k := 0;
    while k < 11
      invariant 0 <= k <= 11
      invariant h.entries == History.AddAll([], ScenarioAdds(k))
    {
      History.AddAllStep(ScenarioAdds(k), Stamp(ScenarioInput(k), k));
      h.Add(ScenarioInput(k), k);
      k := k + 1;
    }
    ScenarioSubjects(k);
    var final := h.entries;
    subjects := seq(|final|, j requires 0 <= j < |final| => final[j].subject);
  }

  /** After `n` scenario sends, position `j` of the panel holds send `n - 1 - j`. */
  lemma ScenarioSubjectAt(n: nat, j: nat)
    requires n >= History.Capacity && j < History.Capacity
    ensures |History.AddAll([], ScenarioAdds(n))| == History.Capacity
    ensures History.AddAll([], ScenarioAdds(n))[j].subject == "S" + Decimal(n - 1 - j)
  {
    History.FromEmpty(ScenarioAdds(n), j);
    ScenarioAddsAt(n, n - 1 - j);
    var item := ScenarioAdds(n)[n - 1 - j];
    assert item.subject == ScenarioInput(n - 1 - j).subject;
  }

  /** After `n` scenario sends the panel holds sends `n - 1` down to `n - 10`. */
  lemma ScenarioSubjects(n: nat)
    requires n >= History.Capacity
    ensures |History.AddAll([], ScenarioAdds(n))| == History.Capacity
    ensures forall j :: 0 <= j < History.Capacity ==>
      History.AddAll([], ScenarioAdds(n))[j].subject == "S" + Decimal(n - 1 - j)
  {
    ScenarioSubjectAt(n, 0);
    forall j | 0 <= j < History.Capacity
      ensures History.AddAll([], ScenarioAdds(n))[j].subject == "S" + Decimal(n - 1 - j)
    {
      ScenarioSubjectAt(n, j);
    }
  }

  /**
    A failed send recorded with the error "Network error" is the first
    record a freshly mounted panel shows after a reload.
   */
  method FailedSendSurvivesReload(to: string, subject: string, now: nat) returns (first: EmailItem)
    ensures first.to == to && first.subject == subject
    ensures !first.success && first.error == Some("Network error")
    ensures first.timestamp == now
  {
    var store := new LocalStore(map[]);
    var h := new EmailHistory(store);
    h.Add(EmailInput(to, subject, false, Some("Network error")), now);
    var reloaded := new EmailHistory(store);
    SavedListReloads(h.entries);
    var ok := reloaded.LoadOnMount();
    first := reloaded.entries[0];
  }
}
