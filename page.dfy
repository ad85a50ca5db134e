/**
 * The browser side of the fortune page (script.js): a per-user, per-day
 * cache of the fortune in `localStorage`, the loading of the fortune with
 * that cache in front of the endpoint, and the guard of the share action.
 *
 * The current date ("YYYY-MM-DD"), `Date.now()` and the random part of a
 * new user id are parameters; the endpoint's answer is a parameter too.
 */
module Page {
  import opened Wrappers
  import opened Fortune

  const UserIdKey: string := "mahjong_user_id"
  const FortuneKey: string := "mahjong_fortune"

  /** The alert shown when there is nothing to share. */
  const NoFortuneMessage: string := "운세 정보를 불러올 수 없습니다."

  /** The object `cacheFortune` stores: the day, the user it was fetched for and the response. */
  datatype CacheRecord = CacheRecord(date: string, userId: string, fortune: FortuneResult)

  /**
   * A value held by `localStorage`. Every value is a string: Record(r) stands
   * for the JSON text `cacheFortune` writes for r, Text(s) for any other string.
   */
  datatype Value = Text(text: string) | Record(record: CacheRecord)

  type Storage = map<string, Value>

  /** The user id, when stored, is a plain string: only `getUserId` writes that key. */
  predicate WellFormed(s: Storage)
  {
    UserIdKey in s ==> s[UserIdKey].Text?
  }

  /** `JSON.parse` of a stored value, read as a cache record; None when the text does not parse or is no cache record. */
  function ParseRecord(v: Value): (r: Option<CacheRecord>)
    ensures r.Some? <==> v.Record?
    ensures r.Some? ==> r.value == v.record
  {
    match v
    case Record(rec) => Some(rec)
    case Text(_) => None
  }

  /** The user id `getItem` yields, when it is truthy (present and not the empty string). */
  function StoredUserId(s: Storage): Option<string>
  {
    if UserIdKey in s && s[UserIdKey].Text? && s[UserIdKey].text != "" then Some(s[UserIdKey].text)
    else None
  }

  function Digit(d: nat): (c: char)
    requires d < 10
    ensures '0' <= c <= '9'
  {
    "0123456789"[d]
  }

  /** The decimal notation of a natural number, as a template literal renders it. */
  function Decimal(n: nat): (r: string)
    ensures |r| >= 1
    ensures forall i :: 0 <= i < |r| ==> '0' <= r[i] <= '9'
    decreases n
  {
    if n < 10 then [Digit(n)] else Decimal(n / 10) + [Digit(n % 10)]
  }

  /** `user_${Date.now()}_${random}`: a new user id from the clock (ms) and a random base-36 suffix. */
  function NewUserId(nowMs: nat, randomPart: string): (id: string)
    ensures |id| > 5 && id[..5] == "user_"
  {
    "user_" + Decimal(nowMs) + "_" + randomPart
  }

  // ---------------------------------------------------------------------
  // The storage transitions, as functions of the storage before the call
  // ---------------------------------------------------------------------

  /** `getUserId`, with newId the id it would generate: the id it returns and the storage after it. */
  function ResolveUserId(s: Storage, newId: string): (r: (string, Storage))
    requires WellFormed(s)
    ensures WellFormed(r.1)
    ensures StoredUserId(s).Some? ==> r.0 == StoredUserId(s).value && r.1 == s
    ensures StoredUserId(s).None? ==> r.0 == newId && UserIdKey in r.1 && r.1[UserIdKey] == Text(newId)
    ensures r.1 - {UserIdKey} == s - {UserIdKey}
  {
    match StoredUserId(s)
    case Some(id) => (id, s)
    case None => (newId, s[UserIdKey := Text(newId)])
  }

  /**
   * `getTodaysCachedFortune`: the cached fortune and the storage after it. The user id is
   * looked up (and possibly created) only once the record parsed and its date is today.
   */
  function LookupCached(s: Storage, today: string, newId: string): (r: (Option<FortuneResult>, Storage))
    requires WellFormed(s)
    ensures WellFormed(r.1)
    ensures r.1 - {UserIdKey} == s - {UserIdKey}
  {
    if FortuneKey !in s then (None, s)
    else
      match ParseRecord(s[FortuneKey])
      case None => (None, s)
      case Some(rec) =>
        if rec.date != today then (None, s)
        else
          var (id, s1) := ResolveUserId(s, newId);
          (if rec.userId == id then Some(rec.fortune) else None, s1)
  }

  /** `cacheFortune`: the storage after writing the record for today and the current user. */
  function StoreFortune(s: Storage, data: FortuneResult, today: string, newId: string): (r: Storage)
    requires WellFormed(s)
    ensures WellFormed(r)
    ensures FortuneKey in r && r[FortuneKey] == Record(CacheRecord(today, ResolveUserId(s, newId).0, data))
  {
    var (id, s1) := ResolveUserId(s, newId);
    s1[FortuneKey := Record(CacheRecord(today, id, data))]
  }

  // ---------------------------------------------------------------------
  // Properties of the transitions
  // ---------------------------------------------------------------------

  /** Once `getUserId` has returned an id that is not empty, that id is stored and every later call returns it and changes nothing. */
  lemma UserIdStable(s: Storage, newId: string, laterId: string)
    requires WellFormed(s)
    requires newId != ""
    ensures StoredUserId(ResolveUserId(s, newId).1) == Some(ResolveUserId(s, newId).0)
    ensures ResolveUserId(ResolveUserId(s, newId).1, laterId) == ResolveUserId(s, newId)
  {
  }

  /** The cached fortune is returned exactly when the stored record parses, is dated today and belongs to the current user. */
  lemma LookupHitIff(s: Storage, today: string, newId: string)
    requires WellFormed(s)
    ensures LookupCached(s, today, newId).0.Some? <==>
      (FortuneKey in s && s[FortuneKey].Record?
       && s[FortuneKey].record.date == today
       && s[FortuneKey].record.userId == ResolveUserId(s, newId).0)
    ensures LookupCached(s, today, newId).0.Some? ==>
      LookupCached(s, today, newId).0.value == s[FortuneKey].record.fortune
  {
  }

  /** A stored value that is no cache record (the parse fails) yields null and leaves the storage alone. */
  lemma MalformedRecordIsNull(s: Storage, today: string, newId: string)
    requires WellFormed(s)
    requires FortuneKey in s && s[FortuneKey].Text?
    ensures LookupCached(s, today, newId) == (None, s)
  {
  }

  /** A record from another day yields null and leaves the storage alone. */
  lemma StaleRecordIsNull(s: Storage, today: string, newId: string)
    requires WellFormed(s)
    requires FortuneKey in s && s[FortuneKey].Record? && s[FortuneKey].record.date != today
    ensures LookupCached(s, today, newId) == (None, s)
  {
  }

  /** Caching a fortune and looking it up on the same day returns that fortune, whatever id a later call would generate. */
  lemma CacheRoundTrip(s: Storage, data: FortuneResult, today: string, newId: string, laterId: string)
    requires WellFormed(s)
    requires newId != ""
    ensures LookupCached(StoreFortune(s, data, today, newId), today, laterId).0 == Some(data)
  {
    var (id, s1) := ResolveUserId(s, newId);
    UserIdStable(s, newId, laterId);
    var s2 := s1[FortuneKey := Record(CacheRecord(today, id, data))];
    assert StoredUserId(s2) == StoredUserId(s1);
  }

  /** `cacheFortune` writes the fortune key and, when no id was stored, the user-id key; nothing else. */
  lemma StoreFortuneFrame(s: Storage, data: FortuneResult, today: string, newId: string)
    requires WellFormed(s)
    ensures StoreFortune(s, data, today, newId) - {FortuneKey, UserIdKey} == s - {FortuneKey, UserIdKey}
    ensures StoredUserId(s).Some? ==> UserIdKey in s && StoreFortune(s, data, today, newId)[UserIdKey] == s[UserIdKey]
  {
    var (id, s1) := ResolveUserId(s, newId);
    assert s1 - {UserIdKey} == s - {UserIdKey};
    assert s1 - {FortuneKey, UserIdKey} == s - {FortuneKey, UserIdKey} by {
      assert s1 - {FortuneKey, UserIdKey} == (s1 - {UserIdKey}) - {FortuneKey};
      assert s - {FortuneKey, UserIdKey} == (s - {UserIdKey}) - {FortuneKey};
    }
  }

  // ---------------------------------------------------------------------
  // The page
  // ---------------------------------------------------------------------

  /** What the page shows: which of the loading, content and error panels are displayed, and the fortune last displayed. */
  datatype View = View(loading: bool, content: bool, error: bool, shown: Option<FortuneResult>)

  /** The answer of `fetch('/api/fortune?userId=…')` and `response.json()`: the body, or a failure (network error, status not ok, body not JSON). */
  datatype Response = Ok(data: FortuneResult) | Failed

  /** What `shareFortune` does: alert that there is nothing to share, or build the share text from the cached fortune. */
  datatype ShareAction = Unavailable | Share(fortune: FortuneResult)

  class Client {
    /** `localStorage`. */
    var storage: Storage
    var view: View
    /** The user ids sent to the endpoint, one per request, in order. */
    var requests: seq<string>
    /** The texts passed to `alert`, in order. */
    var alerts: seq<string>

    ghost predicate Valid()
      reads this
    {
      WellFormed(storage)
    }

    constructor (initial: Storage)
      requires WellFormed(initial)
      ensures Valid()
      ensures storage == initial && requests == [] && alerts == []
      ensures view == View(false, false, false, None)
    {
      storage := initial;
      view := View(false, false, false, None);
      requests := [];
      alerts := [];
    }

    /** `getUserId`: the stored id, or a new one that is stored first. */
    method GetUserId(nowMs: nat, randomPart: string) returns (userId: string)
      requires Valid()
      modifies this`storage
      ensures Valid()
      ensures (userId, storage) == ResolveUserId(old(storage), NewUserId(nowMs, randomPart))
      ensures StoredUserId(storage) == Some(userId)
    {
      var item := if UserIdKey in storage then Some(storage[UserIdKey]) else None;
      if item.None? || item.value.text == "" {
        userId := NewUserId(nowMs, randomPart);
        storage := storage[UserIdKey := Text(userId)];
      } else {
        userId := item.value.text;
      }
    }

    /** `getTodaysCachedFortune`. */
    method GetTodaysCachedFortune(today: string, nowMs: nat, randomPart: string) returns (cached: Option<FortuneResult>)
      requires Valid()
      modifies this`storage
      ensures Valid()
      ensures (cached, storage) == LookupCached(old(storage), today, NewUserId(nowMs, randomPart))
    {
      cached := None;
      if FortuneKey in storage {
        var parsed := ParseRecord(storage[FortuneKey]);
        if parsed.Some? && parsed.value.date == today {
          var userId := GetUserId(nowMs, randomPart);
          if parsed.value.userId == userId {
            cached := Some(parsed.value.fortune);
          }
        }
      }
    }

    /** `cacheFortune`. */
    method CacheFortune(data: FortuneResult, today: string, nowMs: nat, randomPart: string)
      requires Valid()
      modifies this`storage
      ensures Valid()
      ensures storage == StoreFortune(old(storage), data, today, NewUserId(nowMs, randomPart))
    {
      var userId := GetUserId(nowMs, randomPart);
      storage := storage[FortuneKey := Record(CacheRecord(today, userId, data))];
    }

    /**
     * `loadFortune`: show the cached fortune and stop, or ask the endpoint
     * for the current user's fortune, show it and cache it.
     */
    method LoadFortune(today: string, nowMs: nat, randomPart: string, response: Response)
      requires Valid()
      modifies this`storage, this`view, this`requests
      ensures Valid()
      ensures var newId := NewUserId(nowMs, randomPart);
        var (cached, s1) := LookupCached(old(storage), today, newId);
        match cached
        case Some(f) =>
          view == View(false, true, false, Some(f)) && requests == old(requests) && storage == s1
        case None =>
          var (userId, s2) := ResolveUserId(s1, newId);
          requests == old(requests) + [userId] &&
          match response
          case Ok(data) =>
            view == View(false, true, false, Some(data)) && storage == StoreFortune(s2, data, today, newId)
          case Failed =>
            view == View(false, false, true, old(view).shown) && storage == s2
    {
      view := view.(loading := true, content := false, error := false);
      var cached := GetTodaysCachedFortune(today, nowMs, randomPart);
      if cached.Some? {
        view := view.(shown := Some(cached.value));
        view := view.(loading := false, content := true);
        return;
      }
      var userId := GetUserId(nowMs, randomPart);
      requests := requests + [userId];
      match response {
        case Ok(data) =>
          view := view.(shown := Some(data));
          CacheFortune(data, today, nowMs, randomPart);
          view := view.(loading := false, content := true);
        case Failed =>
          view := view.(loading := false, error := true);
      }
    }

    /** `shareFortune` up to the share text: without a cached fortune it alerts and stops. */
    method ShareFortune(today: string, nowMs: nat, randomPart: string) returns (action: ShareAction)
      requires Valid()
      modifies this`storage, this`alerts
      ensures Valid()
      ensures var (cached, s1) := LookupCached(old(storage), today, NewUserId(nowMs, randomPart));
        storage == s1 &&
        match cached
        case None => action == Unavailable && alerts == old(alerts) + [NoFortuneMessage]
        case Some(f) => action == Share(f) && alerts == old(alerts)
    {
      var fortuneData := GetTodaysCachedFortune(today, nowMs, randomPart);
      if fortuneData.None? {
        alerts := alerts + [NoFortuneMessage];
        action := Unavailable;
        return;
      }
      action := Share(fortuneData.value);
    }
  }

  /** Loading twice on the same day asks the endpoint once: the second load is served from the cache. */
  method LoadTwice(c: Client, today: string, nowMs: nat, randomPart: string, data: FortuneResult, second: Response)
    requires c.Valid()
    requires LookupCached(c.storage, today, NewUserId(nowMs, randomPart)).0.None?
    modifies c
    ensures c.Valid()
    ensures |c.requests| == |old(c.requests)| + 1
    ensures c.view == View(false, true, false, Some(data))
  {
    c.LoadFortune(today, nowMs, randomPart, Ok(data));
    c.LoadFortune(today, nowMs + 1, randomPart, second);
  }
}
