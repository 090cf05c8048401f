/**
 * The persistence adapter: one JSON record under one `localStorage` key,
 * with an expiry timestamp that reads enforce. The clock is a parameter
 * `now` in epoch milliseconds.
 */
module ConsentStore {
  import opened Wrappers

  /** `AConsent.storageKey`. */
  const StorageKey := "user_consent_preferences"

  /** Milliseconds in a day: 24 * 60 * 60 * 1000. */
  const MsPerDay := 86400000

  /** A parsed record: its string-valued properties and its `expiry` property, if any. */
  datatype Record = Record(fields: map<string, string>, expiry: Option<int>)

  /**
   * What `localStorage` holds under a key: the empty string, text that
   * `JSON.parse` rejects (or that parses to `null`), or a record.
   */
  datatype Stored = Blank | Corrupt | Json(rec: Record)

  /** `now > obj.expiry`: a record without `expiry` compares false and never expires. */
  predicate Expired(r: Record, now: int)
  {
    r.expiry.Some? && now > r.expiry.value
  }

  /** `#localDataGet`'s result. */
  function Lookup(items: map<string, Stored>, name: string, now: int): (r: Option<Record>)
    ensures r.Some? <==> name in items && items[name].Json? && !Expired(items[name].rec, now)
    ensures r.Some? ==> r.value == items[name].rec
  {
    if name !in items then None
    else match items[name]
      case Blank => None
      case Corrupt => None
      case Json(rec) => if Expired(rec, now) then None else Some(rec)
  }

  /** What `#localDataGet` leaves in storage: a corrupt or expired entry is removed, anything else is kept. */
  function AfterLookup(items: map<string, Stored>, name: string, now: int): (r: map<string, Stored>)
    ensures forall k :: k != name ==> (k in r <==> k in items)
    ensures forall k :: k in r ==> k in items && r[k] == items[k]
    ensures name in r <==> name in items && (items[name].Blank? || (items[name].Json? && !Expired(items[name].rec, now)))
  {
    if name in items && (items[name].Corrupt? || (items[name].Json? && Expired(items[name].rec, now)))
    then items - {name}
    else items
  }

  /** `!value.analytics_storage`: a record without that property, or with the empty string, is refused. */
  predicate HasConsentData(r: Record)
  {
    "analytics_storage" in r.fields && r.fields["analytics_storage"] != ""
  }

  /** `value.expiry ? value.expiry : now + days * MsPerDay` (0 is falsy, so it is replaced). */
  function Stamp(r: Record, days: int, now: int): (s: Record)
    ensures s.fields == r.fields
    ensures r.expiry.Some? && r.expiry.value != 0 ==> s.expiry == r.expiry
    ensures r.expiry.None? || r.expiry == Some(0) ==> s.expiry == Some(now + days * MsPerDay)
  {
    if r.expiry.Some? && r.expiry.value != 0 then r else r.(expiry := Some(now + days * MsPerDay))
  }

  /** What `#localDataSet` leaves in storage; `full` is a `setItem` that throws (quota exceeded), which is caught. */
  function Put(items: map<string, Stored>, name: string, value: Record, days: int, now: int, full: bool): (r: map<string, Stored>)
    ensures !HasConsentData(value) || full ==> r == items
    ensures HasConsentData(value) && !full ==> name in r && r[name] == Json(Stamp(value, days, now))
    ensures forall k :: k != name ==> (k in r <==> k in items)
    ensures forall k :: k != name && k in r ==> r[k] == items[k]
  {
    if !HasConsentData(value) || full then items
    else items[name := Json(Stamp(value, days, now))]
  }

  /** The shared `localStorage`, reduced to the entries it holds. */
  class Store {
    var items: map<string, Stored>
    /** Whether `setItem` throws (quota exceeded or storage disabled). */
    const full: bool

    constructor (items: map<string, Stored>, full: bool)
      ensures this.items == items && this.full == full
    {
      this.items := items;
      this.full := full;
    }

    /** `#localDataGet`: the live record under `name`, removing a corrupt or expired one. */
    method LocalDataGet(name: string, now: int) returns (r: Option<Record>)
      modifies this
      ensures r == Lookup(old(items), name, now)
      ensures items == AfterLookup(old(items), name, now)
    {
      if name !in items {
        return None;
      }
      match items[name] {
        case Blank =>
          // `if (!value) return null` before any parsing
          return None;
        case Corrupt =>
          items := items - {name};
          return None;
        case Json(rec) =>
          if Expired(rec, now) {
            items := items - {name};
            return None;
          }
          return Some(rec);
      }
    }

    /** `#localDataSet`: store `value` stamped with an expiry, unless it lacks consent data or the write throws. */
    method LocalDataSet(name: string, value: Record, days: int, now: int)
      modifies this
      ensures items == Put(old(items), name, value, days, now, full)
    {
      if !HasConsentData(value) {
        // logged: "Consent data not set"
        return;
      }
      var stamped := Stamp(value, days, now);
      if !full {
        items := items[name := Json(stamped)];
      }
    }

    /** `#localDataRemove`. */
    method LocalDataRemove(name: string)
      modifies this
      ensures items == old(items) - {name}
    {
      items := items - {name};
    }
  }

  // ---- Properties of the adapter.

  /** A read leaves nothing that a second read would remove: reading twice is reading once. */
  lemma LookupIdempotent(items: map<string, Stored>, name: string, now: int)
    ensures AfterLookup(AfterLookup(items, name, now), name, now) == AfterLookup(items, name, now)
    ensures Lookup(AfterLookup(items, name, now), name, now) == Lookup(items, name, now)
  {
  }

  /** A sequence of reads at the given times: their results, and the final storage. */
  function Reads(items: map<string, Stored>, name: string, times: seq<int>): (r: (seq<Option<Record>>, map<string, Stored>))
    ensures |r.0| == |times|
  {
    if times == [] then ([], items)
    else
      var rest := Reads(AfterLookup(items, name, times[0]), name, times[1..]);
      ([Lookup(items, name, times[0])] + rest.0, rest.1)
  }

  /** Once a read has found the record expired (or corrupt), it is gone: every later read is null and the key stays absent. */
  lemma {:induction false} ExpiredStaysInvisible(items: map<string, Stored>, name: string, times: seq<int>)
    requires times != []
    requires name in items && (items[name].Corrupt? || (items[name].Json? && Expired(items[name].rec, times[0])))
    ensures forall i :: 0 <= i < |times| ==> Reads(items, name, times).0[i] == None
    ensures name !in Reads(items, name, times).1
  {
    var after := AfterLookup(items, name, times[0]);
    assert name !in after;
    AbsentStaysAbsent(after, name, times[1..]);
  }

  /** Reads never create an entry. */
  lemma {:induction false} AbsentStaysAbsent(items: map<string, Stored>, name: string, times: seq<int>)
    requires name !in items
    ensures forall i :: 0 <= i < |times| ==> Reads(items, name, times).0[i] == None
    ensures name !in Reads(items, name, times).1
  {
    if times != [] {
      AbsentStaysAbsent(AfterLookup(items, name, times[0]), name, times[1..]);
    }
  }

  /**
   * Round trip: a consent record written without an expiry reads back, at
   * any time up to its expiry, as the same fields stamped with
   * `now + days * MsPerDay`; after that it reads as null.
   */
  lemma SetThenGet(items: map<string, Stored>, name: string, fields: map<string, string>, days: int, now: int, later: int)
    requires HasConsentData(Record(fields, None))
    ensures var after := Put(items, name, Record(fields, None), days, now, false);
      Lookup(after, name, later) ==
        if later <= now + days * MsPerDay then Some(Record(fields, Some(now + days * MsPerDay))) else None
  {
  }

  /** A record that already carries a truthy expiry keeps it when written again. */
  lemma SetKeepsExpiry(items: map<string, Stored>, name: string, value: Record, days: int, now: int)
    requires HasConsentData(value) && value.expiry.Some? && value.expiry.value != 0
    ensures Put(items, name, value, days, now, false)[name] == Json(value)
  {
  }

  /** After a remove, a read finds nothing and storage has no entry; removing is idempotent. */
  lemma RemoveThenGet(items: map<string, Stored>, name: string, now: int)
    ensures Lookup(items - {name}, name, now) == None
    ensures (items - {name}) - {name} == items - {name}
  {
  }
}
