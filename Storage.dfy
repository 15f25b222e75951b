/**
  The device-local event store (hooks/storage.ts). The key-value store of the device is a map
  from key text to stored event; serialising an event to JSON and parsing it back is taken to
  be the identity, so the map holds events rather than their text.

  Keys written by `saveEvent` are "event-" + calendar date + "-" + epoch milliseconds;
  `loadEventsForDate` returns the values of every key beginning with "event-" + date;
  `updateEvent` is `saveEvent`; `deleteEvent` removes "event-" + full ISO text.
 */
module Storage {
  import opened Wrappers
  import opened EventTypes
  import Decimal
  import opened Text

  const KEY_PREFIX := "event-"

  /** `startDate.toISOString().split('T')[0]`: the calendar-date part of a key. */
  function DateKey(t: Timestamp): (k: string)
    ensures 'T' !in k && HasPrefix(IsoString(t), k)
    ensures 'T' !in t.utcDate ==> k == t.utcDate
  {
    var iso := IsoString(t);
    assert iso == t.utcDate + ['T'] + t.utcTime;
    BeforeFirst(iso, 'T')
  }

  /** The key `saveEvent` writes an event with this start under. */
  function EventKey(t: Timestamp): (k: string)
    ensures HasPrefix(k, KEY_PREFIX + DateKey(t))
    ensures 'T' !in k
    ensures WellFormed(t) ==>
      |k| > 17 && k[6..16] == t.utcDate && k[16] == '-' && k[17..] == Decimal.IntToString(t.millis)
  {
    KeyLayout(KEY_PREFIX, DateKey(t), '-', Decimal.IntToString(t.millis));
    Decimal.IntToStringChars(t.millis, 'T');
    KEY_PREFIX + DateKey(t) + "-" + Decimal.IntToString(t.millis)
  }

  /** The key `deleteEvent` removes for this start. */
  function DeleteKey(t: Timestamp): (k: string)
    ensures HasPrefix(k, KEY_PREFIX + t.utcDate)
    ensures |k| > |KEY_PREFIX| + |t.utcDate| && k[|KEY_PREFIX| + |t.utcDate|] == 'T'
    ensures WellFormed(t) ==> |k| > 16 && k[6..16] == t.utcDate && k[16] == 'T'
  {
    KeyLayout(KEY_PREFIX, t.utcDate, 'T', t.utcTime);
    KEY_PREFIX + IsoString(t)
  }

  /** Where the parts of `pre + middle + sep + rest` sit. */
  lemma KeyLayout(pre: string, middle: string, sep: char, rest: string)
    ensures var k := pre + middle + [sep] + rest;
            HasPrefix(k, pre + middle) && k[|pre|..|pre| + |middle|] == middle &&
            k[|pre| + |middle|] == sep && k[|pre| + |middle| + 1..] == rest
  {
    var k := pre + middle + [sep] + rest;
    assert k[..|pre + middle|] == pre + middle;
    assert k[|pre|..|pre| + |middle|] == middle;
    assert k[|pre| + |middle| + 1..] == rest;
  }

  /** Every stored event sits under the key its own start gives. */
  ghost predicate KeysMatch(entries: map<string, EventItem>) {
    forall k :: k in entries ==> k == EventKey(entries[k].startDate)
  }

  /** Every stored event has a well-formed start. */
  ghost predicate StartsWellFormed(entries: map<string, EventItem>) {
    forall k :: k in entries ==> WellFormed(entries[k].startDate)
  }

  /** The store after `setItem(EventKey(e.startDate), e)`: one key set, every other entry kept. */
  function Saved(entries: map<string, EventItem>, e: EventItem): (r: map<string, EventItem>)
    ensures r.Keys == entries.Keys + {EventKey(e.startDate)}
    ensures r[EventKey(e.startDate)] == e
    ensures forall k :: k in entries && k != EventKey(e.startDate) ==> r[k] == entries[k]
    ensures KeysMatch(entries) ==> KeysMatch(r)
  {
    entries[EventKey(e.startDate) := e]
  }

  /** The store after `removeItem(key)`: that key gone, every other entry kept. */
  function Removed(entries: map<string, EventItem>, key: string): (r: map<string, EventItem>)
    ensures r.Keys == entries.Keys - {key}
    ensures forall k :: k in r ==> r[k] == entries[k]
    ensures KeysMatch(entries) ==> KeysMatch(r)
  {
    entries - {key}
  }

  /**
    What `JSON.parse(value || '{}')` yields for one listed key: the stored event, or an
    empty object when the key has no value by the time it is read.
   */
  datatype Parsed = Record(item: EventItem) | EmptyObject

  function Lookup(entries: map<string, EventItem>, k: string): (r: Parsed)
    ensures r.Record? <==> k in entries
    ensures r.Record? ==> r.item == entries[k]
  {
    if k in entries then Record(entries[k]) else EmptyObject
  }

  /** `keys.filter(key => key.startsWith(prefix))`. */
  function MatchingKeys(keys: seq<string>, prefix: string): (r: seq<string>)
    ensures |r| <= |keys|
    ensures forall k :: k in r <==> k in keys && HasPrefix(k, prefix)
    ensures forall k :: Count(r, k) == if HasPrefix(k, prefix) then Count(keys, k) else 0
    ensures IsSubsequence(r, keys)
  {
    if keys == [] then []
    else
      var rest := MatchingKeys(keys[1..], prefix);
      if HasPrefix(keys[0], prefix) then
        assert ([keys[0]] + rest)[1..] == rest;
        [keys[0]] + rest
      else
        assert rest != [] ==> rest[0] in rest;
        rest
  }

  /** `multiGet(keys)` followed by parsing each value, in the order of `keys`. */
  function LookupAll(entries: map<string, EventItem>, keys: seq<string>): (r: seq<Parsed>)
    ensures |r| == |keys|
    ensures forall i :: 0 <= i < |keys| ==> r[i] == Lookup(entries, keys[i])
    ensures forall x :: x in r <==> exists k :: k in keys && x == Lookup(entries, k)
  {
    if keys == [] then [] else [Lookup(entries, keys[0])] + LookupAll(entries, keys[1..])
  }

  /**
    `loadEventsForDate(date)`. `listing` is what `getAllKeys()` returned, in the store's own
    order, or None when a storage call rejected; the failure is swallowed and the result
    is empty.
   */
  function LoadEventsForDate(entries: map<string, EventItem>, listing: Option<seq<string>>, date: string)
    : (r: seq<Parsed>)
    ensures listing.None? ==> r == []
    ensures listing.Some? ==> |r| <= |listing.value|
  {
    match listing
    case None => []
    case Some(keys) => LookupAll(entries, MatchingKeys(keys, KEY_PREFIX + date))
  }

  /** A key listing as `getAllKeys()` gives it: every stored key, once. */
  ghost predicate Enumerates(keys: seq<string>, entries: map<string, EventItem>) {
    (forall k :: k in keys <==> k in entries) && NoDup(keys)
  }

  /** A load yields exactly the parsed values of the listed keys with the date's prefix. */
  lemma LoadMembership(entries: map<string, EventItem>, keys: seq<string>, date: string, x: Parsed)
    ensures x in LoadEventsForDate(entries, Some(keys), date) <==>
            exists k :: k in keys && HasPrefix(k, KEY_PREFIX + date) && x == Lookup(entries, k)
  {
    var ks := MatchingKeys(keys, KEY_PREFIX + date);
    if x in LoadEventsForDate(entries, Some(keys), date) {
      var k :| k in ks && x == Lookup(entries, k);
      assert k in keys && HasPrefix(k, KEY_PREFIX + date);
    }
  }

  lemma SavedKeyHasDatePrefix(t: Timestamp, p: string)
    requires HasPrefix(DateKey(t), p)
    ensures HasPrefix(EventKey(t), KEY_PREFIX + p)
  {
    assert HasPrefix(KEY_PREFIX + DateKey(t), KEY_PREFIX + p) by {
      assert (KEY_PREFIX + DateKey(t))[..|KEY_PREFIX + p|] == KEY_PREFIX + DateKey(t)[..|p|];
    }
    HasPrefixTrans(EventKey(t), KEY_PREFIX + DateKey(t), KEY_PREFIX + p);
  }

  /** Round trip: after saving e, loading e's calendar date returns e. */
  lemma SaveThenLoad(entries: map<string, EventItem>, e: EventItem, keys: seq<string>)
    requires Enumerates(keys, Saved(entries, e))
    ensures Record(e) in LoadEventsForDate(Saved(entries, e), Some(keys), DateKey(e.startDate))
  {
    var m := Saved(entries, e);
    var k := EventKey(e.startDate);
    assert HasPrefix(k, KEY_PREFIX + DateKey(e.startDate));
    assert k in keys && Lookup(m, k) == Record(e);
    LoadMembership(m, keys, DateKey(e.startDate), Record(e));
  }

  /** For a full ten-character date, the key of an event starts with "event-" + date exactly when the event is on that date. */
  lemma KeyPrefixIffSameDate(t: Timestamp, date: string)
    requires WellFormed(t) && |date| == 10
    ensures HasPrefix(EventKey(t), KEY_PREFIX + date) <==> DateKey(t) == date
  {
    var k := EventKey(t);
    if DateKey(t) == date {
      SavedKeyHasDatePrefix(t, date);
    }
    if HasPrefix(k, KEY_PREFIX + date) {
      assert k[6..16] == t.utcDate;
      assert (KEY_PREFIX + date)[6..16] == date;
    }
  }

  /**
    Prefix isolation: when every stored event sits under its own key, a load of a full date
    returns only events of that date.
   */
  lemma LoadIsolation(entries: map<string, EventItem>, keys: seq<string>, date: string, x: Parsed)
    requires KeysMatch(entries) && StartsWellFormed(entries)
    requires Enumerates(keys, entries) && |date| == 10
    requires x in LoadEventsForDate(entries, Some(keys), date)
    ensures x.Record? && DateKey(x.item.startDate) == date
  {
    LoadMembership(entries, keys, date, x);
    var k :| k in keys && HasPrefix(k, KEY_PREFIX + date) && x == Lookup(entries, k);
    KeyPrefixIffSameDate(entries[k].startDate, date);
  }

  /** Completeness: every stored event of the date is returned by a load of that date. */
  lemma LoadComplete(entries: map<string, EventItem>, keys: seq<string>, date: string, k: string)
    requires KeysMatch(entries) && Enumerates(keys, entries)
    requires k in entries && DateKey(entries[k].startDate) == date
    ensures Record(entries[k]) in LoadEventsForDate(entries, Some(keys), date)
  {
    SavedKeyHasDatePrefix(entries[k].startDate, date);
    LoadMembership(entries, keys, date, Record(entries[k]));
    assert Lookup(entries, k) == Record(entries[k]);
  }

  /** A shorter prefix, such as a year and month, also returns events of every matching date. */
  lemma ShortDatePrefixMatches(entries: map<string, EventItem>, keys: seq<string>, p: string, k: string)
    requires KeysMatch(entries) && Enumerates(keys, entries)
    requires k in entries && HasPrefix(DateKey(entries[k].startDate), p)
    ensures Record(entries[k]) in LoadEventsForDate(entries, Some(keys), p)
  {
    SavedKeyHasDatePrefix(entries[k].startDate, p);
    LoadMembership(entries, keys, p, Record(entries[k]));
    assert Lookup(entries, k) == Record(entries[k]);
  }

  /**
    Under matching keys, the record of key k is read once for every time k is listed:
    no other key holds it.
   */
  lemma {:induction false} CountLookupAll(entries: map<string, EventItem>, ks: seq<string>, k: string)
    requires KeysMatch(entries) && k in entries
    ensures Count(LookupAll(entries, ks), Record(entries[k])) == Count(ks, k)
  {
    if ks != [] {
      var r := LookupAll(entries, ks);
      assert r[1..] == LookupAll(entries, ks[1..]);
      CountLookupAll(entries, ks[1..], k);
      if Lookup(entries, ks[0]) == Record(entries[k]) {
        assert ks[0] == EventKey(entries[ks[0]].startDate) == k;
      }
    }
  }

  /** Loading a date returns each stored record of that date exactly once. */
  lemma LoadExactlyOnce(entries: map<string, EventItem>, keys: seq<string>, date: string, k: string)
    requires KeysMatch(entries) && Enumerates(keys, entries)
    requires k in entries && DateKey(entries[k].startDate) == date
    ensures Count(LoadEventsForDate(entries, Some(keys), date), Record(entries[k])) == 1
  {
    var ks := MatchingKeys(keys, KEY_PREFIX + date);
    assert HasPrefix(k, KEY_PREFIX + date) by {
      SavedKeyHasDatePrefix(entries[k].startDate, date);
    }
    CountNoDup(keys, k);
    CountLookupAll(entries, ks, k);
  }

  /** A listed key whose value has vanished is read as an empty object, not an error. */
  lemma MissingValueIsEmptyObject(entries: map<string, EventItem>, keys: seq<string>, date: string, k: string)
    requires k in keys && HasPrefix(k, KEY_PREFIX + date) && k !in entries
    ensures EmptyObject in LoadEventsForDate(entries, Some(keys), date)
  {
    LoadMembership(entries, keys, date, EmptyObject);
    assert Lookup(entries, k) == EmptyObject;
  }

  /** Two events with the same start share a key: saving both leaves only the later one's save. */
  lemma SameStartOverwrites(entries: map<string, EventItem>, e1: EventItem, e2: EventItem)
    requires e1.startDate == e2.startDate
    ensures Saved(Saved(entries, e1), e2) == Saved(entries, e2)
  {
    var key := EventKey(e2.startDate);
    OverwriteTwice(entries, key, e1, e2);
  }

  lemma OverwriteTwice<K, V>(m: map<K, V>, k: K, a: V, b: V)
    ensures m[k := a][k := b] == m[k := b]
  {
  }

  /** ... and the earlier event is then stored nowhere, whatever its title or other fields. */
  lemma SameStartLosesEarlier(entries: map<string, EventItem>, e1: EventItem, e2: EventItem)
    requires KeysMatch(entries) && e1.startDate == e2.startDate && e1 != e2
    ensures e1 !in Saved(entries, e2).Values
  {
    var r := Saved(entries, e2);
    assert KeysMatch(r) && r[EventKey(e1.startDate)] == e2;
    NotStoredElsewhere(r, e1);
  }

  /** Under matching keys, an event can only be stored under its own key. */
  lemma NotStoredElsewhere(entries: map<string, EventItem>, e: EventItem)
    requires KeysMatch(entries)
    requires EventKey(e.startDate) in entries ==> entries[EventKey(e.startDate)] != e
    ensures e !in entries.Values
  {
  }

  lemma IntToStringInjective(a: int, b: int)
    requires Decimal.IntToString(a) == Decimal.IntToString(b)
    ensures a == b
  {
    var s := Decimal.IntToString(a);
    if a < 0 {
      assert s[1..] == Decimal.NatToString(-a) == Decimal.NatToString(-b);
      Decimal.NatToStringInjective(-a, -b);
    } else {
      Decimal.NatToStringInjective(a, b);
    }
  }

  /** Keys of well-formed starts differ whenever the dates or the milliseconds differ. */
  lemma EventKeyInjective(t1: Timestamp, t2: Timestamp)
    requires WellFormed(t1) && WellFormed(t2)
    requires EventKey(t1) == EventKey(t2)
    ensures t1.utcDate == t2.utcDate && t1.millis == t2.millis
  {
    var k := EventKey(t1);
    assert k[6..16] == t1.utcDate && EventKey(t2)[6..16] == t2.utcDate;
    assert k[17..] == Decimal.IntToString(t1.millis);
    assert EventKey(t2)[17..] == Decimal.IntToString(t2.millis);
    IntToStringInjective(t1.millis, t2.millis);
  }

  /**
    Updating an event whose start moved to another instant saves it under a new key and leaves
    the old record in place.
   */
  lemma UpdateOrphansOldRecord(entries: map<string, EventItem>, before: EventItem, after: EventItem)
    requires WellFormed(before.startDate) && WellFormed(after.startDate)
    requires before.startDate.millis != after.startDate.millis
    ensures var r := Saved(Saved(entries, before), after);
            EventKey(before.startDate) in r && r[EventKey(before.startDate)] == before &&
            EventKey(after.startDate) in r && r[EventKey(after.startDate)] == after
  {
    if EventKey(before.startDate) == EventKey(after.startDate) {
      EventKeyInjective(before.startDate, after.startDate);
    }
  }

  /**
    The key `deleteEvent` removes is never one `saveEvent` writes, for any two starts: the
    delete key has 'T' right after the date, and no save key holds a 'T'.
   */
  lemma DeleteKeyIsNeverEventKey(t1: Timestamp, t2: Timestamp)
    ensures DeleteKey(t1) != EventKey(t2)
  {
    var d := DeleteKey(t1);
    assert 'T' in d by {
      assert d[|KEY_PREFIX| + |t1.utcDate|] == 'T';
    }
  }

  /** So, on a store written only by `saveEvent`, `deleteEvent` removes nothing. */
  lemma DeleteIsNoOp(entries: map<string, EventItem>, t: Timestamp)
    requires KeysMatch(entries)
    ensures Removed(entries, DeleteKey(t)) == entries
  {
    if DeleteKey(t) in entries {
      DeleteKeyIsNeverEventKey(t, entries[DeleteKey(t)].startDate);
    }
  }

  /** The device store, updated in place by the three writing operations. */
  class EventStore {
    var entries: map<string, EventItem>

    ghost predicate Valid()
      reads this
    {
      KeysMatch(entries)
    }

    constructor ()
      ensures Valid() && entries == map[]
    {
      entries := map[];
    }

    /** `saveEvent(event)`; `stored` is whether the storage write succeeds (a failure is logged and ignored). */
    method SaveEvent(event: EventItem, stored: bool)
      requires Valid()
      modifies this
      ensures Valid()
      ensures entries == if stored then Saved(old(entries), event) else old(entries)
    {
      var dateKey := BeforeFirst(IsoString(event.startDate), 'T');
      var eventKey := KEY_PREFIX + dateKey + "-" + Decimal.IntToString(event.startDate.millis);
      if stored {
        entries := entries[eventKey := event];
      }
    }

    /** `updateEvent(event)`: the same effect as `saveEvent(event)`. */
    method UpdateEvent(event: EventItem, stored: bool)
      requires Valid()
      modifies this
      ensures Valid()
      ensures entries == if stored then Saved(old(entries), event) else old(entries)
    {
      SaveEvent(event, stored);
    }

    /** `deleteEvent(startDate)`; `removed` is whether the storage call succeeds. */
    method DeleteEvent(startDate: Timestamp, removed: bool)
      requires Valid()
      modifies this
      ensures Valid()
      ensures entries == if removed then Removed(old(entries), DeleteKey(startDate)) else old(entries)
      ensures entries == old(entries)
    {
      DeleteIsNoOp(entries, startDate);
      if removed {
        entries := entries - {KEY_PREFIX + IsoString(startDate)};
      }
    }
  }
}
