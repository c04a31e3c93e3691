/**
 * Per-device read state of the global notification feed
 * (app/.../ui/viewmodel/NotificationViewModel.kt).
 *
 * A notification's `read` flag is derived, never stored on the server: it is
 * read when its timestamp is at or before the device's `lastSeen` watermark
 * or when its id is in the device's set of explicitly read ids. The view-model
 * keeps both in its SharedPreferences, together with a cached copy of the list.
 */
module Notifications {
  import opened Optional

  /** A feed entry; `timestamp` in milliseconds. */
  datatype Notification = Notification(
    id: string,
    title: string,
    body: string,
    timestamp: int,
    data: map<string, string>,
    read: bool)

  /** `isNotificationRead(id, ts)` against a given watermark and read-id set. */
  predicate IsNotificationRead(id: string, timestamp: int, lastSeen: int, readIds: set<string>) {
    timestamp <= lastSeen || id in readIds
  }

  /**
   * `items.map { item.copy(read = isNotificationRead(item.id, item.timestamp)) }`:
   * one output per input, in order, with only `read` recomputed.
   */
  function Reconcile(items: seq<Notification>, lastSeen: int, readIds: set<string>): (r: seq<Notification>)
    ensures |r| == |items|
    ensures forall i :: 0 <= i < |items| ==>
              r[i] == items[i].(read := IsNotificationRead(items[i].id, items[i].timestamp, lastSeen, readIds))
  {
    if items == [] then []
    else [items[0].(read := IsNotificationRead(items[0].id, items[0].timestamp, lastSeen, readIds))]
         + Reconcile(items[1..], lastSeen, readIds)
  }

  /** Reconciling an already reconciled list changes nothing. */
  lemma ReconcileIdempotent(items: seq<Notification>, lastSeen: int, readIds: set<string>)
    ensures Reconcile(Reconcile(items, lastSeen, readIds), lastSeen, readIds) == Reconcile(items, lastSeen, readIds)
  {
  }

  /** The result does not depend on the `read` flags that came in. */
  lemma ReconcileIgnoresIncomingFlags(a: seq<Notification>, b: seq<Notification>, lastSeen: int, readIds: set<string>)
    requires |a| == |b|
    requires forall i :: 0 <= i < |a| ==> a[i].(read := false) == b[i].(read := false)
    ensures Reconcile(a, lastSeen, readIds) == Reconcile(b, lastSeen, readIds)
  {
    forall i | 0 <= i < |a|
      ensures Reconcile(a, lastSeen, readIds)[i] == Reconcile(b, lastSeen, readIds)[i]
    {
      assert a[i].(read := false).id == b[i].(read := false).id;
    }
  }

  /** Advancing the watermark or adding read ids never turns a read item unread. */
  lemma ReconcileMonotone(items: seq<Notification>, lastSeen: int, readIds: set<string>,
                          lastSeen': int, readIds': set<string>, i: nat)
    requires lastSeen <= lastSeen' && readIds <= readIds' && i < |items|
    requires Reconcile(items, lastSeen, readIds)[i].read
    ensures Reconcile(items, lastSeen', readIds')[i].read
  {
  }

  /** `map { n -> if (n.id == id) n.copy(read = true) else n }`. */
  function MarkRead(items: seq<Notification>, id: string): (r: seq<Notification>)
    ensures |r| == |items|
    ensures forall i :: 0 <= i < |items| ==>
              r[i] == if items[i].id == id then items[i].(read := true) else items[i]
  {
    if items == [] then []
    else [if items[0].id == id then items[0].(read := true) else items[0]] + MarkRead(items[1..], id)
  }

  /** `map { it.copy(read = true) }`. */
  function AllRead(items: seq<Notification>): (r: seq<Notification>)
    ensures |r| == |items|
    ensures forall i :: 0 <= i < |items| ==> r[i] == items[i].(read := true)
  {
    if items == [] then [] else [items[0].(read := true)] + AllRead(items[1..])
  }

  /**
   * Marking one id read keeps a reconciled list reconciled: it is the list
   * reconciled against the read-id set that now contains that id.
   */
  lemma MarkReadKeepsReconciled(items: seq<Notification>, lastSeen: int, readIds: set<string>, id: string)
    ensures MarkRead(Reconcile(items, lastSeen, readIds), id) == Reconcile(items, lastSeen, readIds + {id})
  {
    var rec := Reconcile(items, lastSeen, readIds);
    var lhs := MarkRead(rec, id);
    var rhs := Reconcile(items, lastSeen, readIds + {id});
    forall i | 0 <= i < |items|
      ensures lhs[i] == rhs[i]
    {
      var it := items[i];
      assert rec[i] == it.(read := IsNotificationRead(it.id, it.timestamp, lastSeen, readIds));
      assert rhs[i] == it.(read := IsNotificationRead(it.id, it.timestamp, lastSeen, readIds + {id}));
      if it.id == id {
        assert lhs[i] == it.(read := true);
      } else {
        assert lhs[i] == rec[i];
      }
    }
    assert |lhs| == |rhs|;
  }

  /**
   * Marking everything read agrees with reconciling against the new state
   * (watermark `now`, no read ids) exactly when no item is newer than `now`;
   * a later item shows as read now and as unread after the next snapshot.
   */
  lemma AllReadVersusReconcile(items: seq<Notification>, lastSeen: int, readIds: set<string>, now: int)
    ensures AllRead(Reconcile(items, lastSeen, readIds)) == Reconcile(items, now, {})
            <==> forall i :: 0 <= i < |items| ==> items[i].timestamp <= now
  {
    var lhs := AllRead(Reconcile(items, lastSeen, readIds));
    var rhs := Reconcile(items, now, {});
    if forall i :: 0 <= i < |items| ==> items[i].timestamp <= now {
      forall i | 0 <= i < |items|
        ensures lhs[i] == rhs[i]
      {
      }
    } else {
      var i :| 0 <= i < |items| && items[i].timestamp > now;
      assert !rhs[i].read && lhs[i].read;
    }
  }

  /** `count { !it.read }`. */
  function CountUnread(items: seq<Notification>): (n: nat)
    ensures n == |UnreadIndices(items)|
    ensures n <= |items|
    ensures n == 0 <==> forall i :: 0 <= i < |items| ==> items[i].read
    ensures n == |items| <==> forall i :: 0 <= i < |items| ==> !items[i].read
  {
    if items == [] then
      assert UnreadIndices(items) == {};
      0
    else
      var init := items[..|items| - 1];
      UnreadIndicesSnoc(items);
      (if items[|items| - 1].read then 0 else 1) + CountUnread(init)
  }

  /** The positions of the unread notifications. */
  ghost function UnreadIndices(items: seq<Notification>): set<int> {
    set i | 0 <= i < |items| && !items[i].read
  }

  /** Appending one notification adds its position exactly when it is unread. */
  lemma UnreadIndicesSnoc(items: seq<Notification>)
    requires items != []
    ensures UnreadIndices(items) ==
      UnreadIndices(items[..|items| - 1]) + (if items[|items| - 1].read then {} else {|items| - 1})
    ensures |items| - 1 !in UnreadIndices(items[..|items| - 1])
  {
    var init := items[..|items| - 1];
    assert forall i :: 0 <= i < |init| ==> init[i] == items[i];
  }

  /** After marking everything read nothing is unread. */
  lemma AllReadHasNoUnread(items: seq<Notification>)
    ensures CountUnread(AllRead(items)) == 0
  {
  }

  /** A Firestore document: its id and what `toObject` made of it (None when null or it threw). */
  datatype Doc = Doc(id: string, converted: Option<Notification>)

  /** How many of `docs` convert. */
  function ConvertedCount(docs: seq<Doc>): (n: nat)
    ensures n <= |docs|
  {
    if docs == [] then 0
    else ConvertedCount(docs[..|docs| - 1]) + (if docs[|docs| - 1].converted.Some? then 1 else 0)
  }

  /**
   * `docs.mapNotNull { doc.toObject(...)?.copy(id = doc.id) }`: failures are
   * dropped, and the document at index `i` lands at the position given by the
   * number of converted documents before it.
   */
  function SnapshotItems(docs: seq<Doc>): (r: seq<Notification>)
    ensures |r| == ConvertedCount(docs) <= |docs|
    ensures forall i :: 0 <= i < |docs| && docs[i].converted.Some? ==>
              ConvertedCount(docs[..i]) < |r| &&
              r[ConvertedCount(docs[..i])] == docs[i].converted.value.(id := docs[i].id)
    ensures forall n :: n in r <==> exists d :: d in docs && d.converted.Some? && n == d.converted.value.(id := d.id)
  {
    if docs == [] then []
    else
      var r0 := SnapshotItems(docs[..|docs| - 1]);
      var last := docs[|docs| - 1];
      var r := if last.converted.Some? then r0 + [last.converted.value.(id := last.id)] else r0;
      SnapshotOrderStep(docs, r0, r);
      SnapshotMembersStep(docs, r0, r);
      r
  }

  /** The order half of the step of SnapshotItems: positions in the prefix extend to the last document. */
  lemma SnapshotOrderStep(docs: seq<Doc>, r0: seq<Notification>, r: seq<Notification>)
    requires docs != []
    requires var init := docs[..|docs| - 1];
      && |r0| == ConvertedCount(init)
      && (forall i :: 0 <= i < |init| && init[i].converted.Some? ==>
            ConvertedCount(init[..i]) < |r0| &&
            r0[ConvertedCount(init[..i])] == init[i].converted.value.(id := init[i].id))
    requires var last := docs[|docs| - 1];
      r == if last.converted.Some? then r0 + [last.converted.value.(id := last.id)] else r0
    ensures |r| == ConvertedCount(docs) <= |docs|
    ensures forall i :: 0 <= i < |docs| && docs[i].converted.Some? ==>
              ConvertedCount(docs[..i]) < |r| &&
              r[ConvertedCount(docs[..i])] == docs[i].converted.value.(id := docs[i].id)
  {
    var init, last := docs[..|docs| - 1], docs[|docs| - 1];
    forall i | 0 <= i < |docs| && docs[i].converted.Some?
      ensures ConvertedCount(docs[..i]) < |r| &&
              r[ConvertedCount(docs[..i])] == docs[i].converted.value.(id := docs[i].id)
    {
      if i < |init| {
        assert docs[i] == init[i] && docs[..i] == init[..i];
        var k := ConvertedCount(init[..i]);
        assert k < |r0| && r0[k] == init[i].converted.value.(id := init[i].id);
        assert r[k] == r0[k];
      } else {
        assert i == |init| && docs[i] == last && docs[..i] == init;
      }
    }
  }

  /** The membership half of the step of SnapshotItems. */
  lemma SnapshotMembersStep(docs: seq<Doc>, r0: seq<Notification>, r: seq<Notification>)
    requires docs != []
    requires var init := docs[..|docs| - 1];
      forall n :: n in r0 <==> exists d :: d in init && d.converted.Some? && n == d.converted.value.(id := d.id)
    requires var last := docs[|docs| - 1];
      r == if last.converted.Some? then r0 + [last.converted.value.(id := last.id)] else r0
    ensures forall n :: n in r <==> exists d :: d in docs && d.converted.Some? && n == d.converted.value.(id := d.id)
  {
    var init, last := docs[..|docs| - 1], docs[|docs| - 1];
    assert forall x :: x in docs <==> x in init || x == last by {
      assert docs == init + [last];
    }
  }

  /** An element of the cached JSON array: not an object, or an object `fromJsonObject` did or did not accept. */
  datatype CacheEntry = NotAnObject | JsonObject(parsed: Option<Notification>)

  /** The "cached_notifications" preference: blank, not a JSON array, or an array. */
  datatype CachedJson = Blank | Malformed | JsonArray(entries: seq<CacheEntry>)

  /** How many of `entries` are objects the parser accepts. */
  function ParsedCount(entries: seq<CacheEntry>): (n: nat)
    ensures n <= |entries|
  {
    if entries == [] then 0
    else ParsedCount(entries[..|entries| - 1]) + (if entries[|entries| - 1].JsonObject? && entries[|entries| - 1].parsed.Some? then 1 else 0)
  }

  /**
   * The notifications `loadCachedNotifications` recovers from an array, in
   * order: an accepted entry at index `i` lands at the position given by the
   * number of accepted entries before it.
   */
  function CachedItems(entries: seq<CacheEntry>): (r: seq<Notification>)
    ensures |r| == ParsedCount(entries) <= |entries|
    ensures forall i :: 0 <= i < |entries| && entries[i].JsonObject? && entries[i].parsed.Some? ==>
              ParsedCount(entries[..i]) < |r| && r[ParsedCount(entries[..i])] == entries[i].parsed.value
    ensures forall n :: n in r <==> JsonObject(Some(n)) in entries
  {
    if entries == [] then []
    else
      var r0 := CachedItems(entries[..|entries| - 1]);
      var last := entries[|entries| - 1];
      var r := if last.JsonObject? && last.parsed.Some? then r0 + [last.parsed.value] else r0;
      CachedOrderStep(entries, r0, r);
      CachedMembersStep(entries, r0, r);
      r
  }

  /** The order half of the step of CachedItems: positions in the prefix extend to the last entry. */
  lemma CachedOrderStep(entries: seq<CacheEntry>, r0: seq<Notification>, r: seq<Notification>)
    requires entries != []
    requires var init := entries[..|entries| - 1];
      && |r0| == ParsedCount(init)
      && (forall i :: 0 <= i < |init| && init[i].JsonObject? && init[i].parsed.Some? ==>
            ParsedCount(init[..i]) < |r0| && r0[ParsedCount(init[..i])] == init[i].parsed.value)
    requires var last := entries[|entries| - 1];
      r == if last.JsonObject? && last.parsed.Some? then r0 + [last.parsed.value] else r0
    ensures |r| == ParsedCount(entries) <= |entries|
    ensures forall i :: 0 <= i < |entries| && entries[i].JsonObject? && entries[i].parsed.Some? ==>
              ParsedCount(entries[..i]) < |r| && r[ParsedCount(entries[..i])] == entries[i].parsed.value
  {
    var init, last := entries[..|entries| - 1], entries[|entries| - 1];
    forall i | 0 <= i < |entries| && entries[i].JsonObject? && entries[i].parsed.Some?
      ensures ParsedCount(entries[..i]) < |r| && r[ParsedCount(entries[..i])] == entries[i].parsed.value
    {
      if i < |init| {
        assert entries[i] == init[i] && entries[..i] == init[..i];
        var k := ParsedCount(init[..i]);
        assert k < |r0| && r0[k] == init[i].parsed.value;
        assert r[k] == r0[k];
      } else {
        assert i == |init| && entries[i] == last && entries[..i] == init;
      }
    }
  }

  /** The membership half of the step of CachedItems. */
  lemma CachedMembersStep(entries: seq<CacheEntry>, r0: seq<Notification>, r: seq<Notification>)
    requires entries != []
    requires var init := entries[..|entries| - 1];
      forall n :: n in r0 <==> JsonObject(Some(n)) in init
    requires var last := entries[|entries| - 1];
      r == if last.JsonObject? && last.parsed.Some? then r0 + [last.parsed.value] else r0
    ensures forall n :: n in r <==> JsonObject(Some(n)) in entries
  {
    var init, last := entries[..|entries| - 1], entries[|entries| - 1];
    assert forall x :: x in entries <==> x in init || x == last by {
      assert entries == init + [last];
    }
  }

  /** The index loop of `loadCachedNotifications`, skipping what it cannot use. */
  method ParseCachedEntries(entries: seq<CacheEntry>) returns (list: seq<Notification>)
    ensures list == CachedItems(entries)
  {
    list := [];
    for i := 0 to |entries|
      invariant list == CachedItems(entries[..i])
    {
      assert entries[..i + 1][..i] == entries[..i];
      match entries[i]
      case NotAnObject =>
      case JsonObject(parsed) =>
        if parsed.Some? {
          list := list + [parsed.value];
        }
    }
    assert entries[..|entries|] == entries;
  }

  /** `saveCachedNotifications`: one JSON object per notification. */
  function Serialize(items: seq<Notification>): (r: seq<CacheEntry>)
    ensures |r| == |items|
    ensures forall i :: 0 <= i < |items| ==> r[i] == JsonObject(Some(items[i]))
  {
    seq(|items|, i requires 0 <= i < |items| => JsonObject(Some(items[i])))
  }

  /** Appending an accepted object appends its notification. */
  lemma CachedItemsAppendAccepted(entries: seq<CacheEntry>, n: Notification)
    ensures CachedItems(entries + [JsonObject(Some(n))]) == CachedItems(entries) + [n]
  {
    assert (entries + [JsonObject(Some(n))])[..|entries|] == entries;
  }

  /** What is saved is what is loaded back. */
  lemma {:induction false} CacheRoundTrip(items: seq<Notification>)
    ensures CachedItems(Serialize(items)) == items
  {
    if items != [] {
      var init, last := items[..|items| - 1], items[|items| - 1];
      assert Serialize(items) == Serialize(init) + [JsonObject(Some(last))];
      CachedItemsAppendAccepted(Serialize(init), last);
      CacheRoundTrip(init);
      assert items == init + [last];
    }
  }

  /** The outcome of attaching the snapshot listener. */
  datatype AttachOutcome = Attached | AttachFailed(message: Option<string>)

  /** One callback of the snapshot listener. */
  datatype SnapshotEvent = SnapshotError(message: Option<string>) | Snapshot(docs: seq<Doc>)

  class NotificationViewModel {
    // SharedPreferences "prefs"; None where nothing is stored yet.
    var storedLastSeen: Option<int>           // "lastSeen"
    var storedReadIds: Option<set<string>>    // "read_notification_ids"
    var cachedJson: CachedJson                // "cached_notifications"
    // Published state.
    var notifications: seq<Notification>
    var isLoading: bool
    var errorMessage: Option<string>

    /** `getLastSeen()`: 0 when nothing is stored. */
    function LastSeen(): (r: int)
      reads this
      ensures storedLastSeen.None? ==> r == 0
      ensures storedLastSeen.Some? ==> r == storedLastSeen.value
    {
      storedLastSeen.GetOr(0)
    }

    /** `getReadIdSet()`: empty when nothing is stored. */
    function ReadIdSet(): (r: set<string>)
      reads this
      ensures storedReadIds.None? ==> r == {}
      ensures storedReadIds.Some? ==> r == storedReadIds.value
    {
      storedReadIds.GetOr({})
    }

    /** `getUnreadCount`: `count { !it.read }`. */
    function UnreadCount(): (n: nat)
      reads this
      ensures n == |set i | 0 <= i < |notifications| && !notifications[i].read|
      ensures n == 0 <==> forall i :: 0 <= i < |notifications| ==> notifications[i].read
    {
      CountUnread(notifications)
    }

    /** The view-model's `init`: load the cache, then attach the listener. */
    constructor (lastSeen: Option<int>, readIds: Option<set<string>>, cache: CachedJson, attach: AttachOutcome)
      ensures storedLastSeen == lastSeen && storedReadIds == readIds && cachedJson == cache
      ensures cache.JsonArray? ==> notifications == Reconcile(CachedItems(cache.entries), LastSeen(), ReadIdSet())
      ensures !cache.JsonArray? ==> notifications == []
      ensures attach.Attached? ==> isLoading && errorMessage == None
      ensures attach.AttachFailed? ==> !isLoading && errorMessage == attach.message
    {
      storedLastSeen := lastSeen;
      storedReadIds := readIds;
      cachedJson := cache;
      notifications := [];
      isLoading := false;
      errorMessage := None;
      new;
      LoadCachedNotifications();
      LoadNotifications(attach);
    }

    /** `loadCachedNotifications`: a blank or unparsable cache leaves the list as it is. */
    method LoadCachedNotifications()
      modifies this`notifications
      ensures cachedJson.JsonArray? ==>
                notifications == Reconcile(CachedItems(cachedJson.entries), LastSeen(), ReadIdSet())
      ensures !cachedJson.JsonArray? ==> notifications == old(notifications)
    {
      match cachedJson
      case JsonArray(entries) =>
        var list := ParseCachedEntries(entries);
        notifications := Reconcile(list, LastSeen(), ReadIdSet());
      case _ =>
    }

    /** `loadNotifications` up to attaching the listener. */
    method LoadNotifications(attach: AttachOutcome)
      modifies this`isLoading, this`errorMessage
      ensures attach.Attached? ==> isLoading && errorMessage == None
      ensures attach.AttachFailed? ==> !isLoading && errorMessage == attach.message
    {
      isLoading := true;
      errorMessage := None;
      if attach.AttachFailed? {
        errorMessage := attach.message;
        isLoading := false;
      }
    }

    /** The snapshot listener: an error keeps the published list and the cache. */
    method OnSnapshot(event: SnapshotEvent)
      modifies this`notifications, this`cachedJson, this`isLoading, this`errorMessage
      ensures !isLoading
      ensures event.SnapshotError? ==>
                notifications == old(notifications) && cachedJson == old(cachedJson) &&
                errorMessage == event.message
      ensures event.Snapshot? ==>
                notifications == Reconcile(SnapshotItems(event.docs), LastSeen(), ReadIdSet()) &&
                cachedJson == JsonArray(Serialize(notifications)) &&
                errorMessage == old(errorMessage)
    {
      match event
      case SnapshotError(message) =>
        errorMessage := message;
        isLoading := false;
      case Snapshot(docs) =>
        var items := SnapshotItems(docs);
        notifications := Reconcile(items, LastSeen(), ReadIdSet());
        cachedJson := JsonArray(Serialize(notifications));
        isLoading := false;
    }

    /** `markAsRead(id)`. */
    method MarkAsRead(id: string)
      modifies this`storedReadIds, this`notifications, this`cachedJson
      ensures ReadIdSet() == old(ReadIdSet()) + {id}
      ensures id in old(ReadIdSet()) ==> storedReadIds == old(storedReadIds)
      ensures notifications == MarkRead(old(notifications), id)
      ensures cachedJson == JsonArray(Serialize(notifications))
    {
      var readSet := ReadIdSet();
      if id !in readSet {
        storedReadIds := Some(readSet + {id});
      }
      notifications := MarkRead(notifications, id);
      cachedJson := JsonArray(Serialize(notifications));
    }

    /** `markAllAsRead()`, with `System.currentTimeMillis()` passed in as `now`. */
    method MarkAllAsRead(now: int)
      modifies this`storedLastSeen, this`storedReadIds, this`notifications, this`cachedJson
      ensures storedLastSeen == Some(now) && storedReadIds == Some({})
      ensures notifications == AllRead(old(notifications))
      ensures cachedJson == JsonArray(Serialize(notifications))
      ensures UnreadCount() == 0
    {
      storedLastSeen := Some(now);
      storedReadIds := Some({});
      notifications := AllRead(notifications);
      cachedJson := JsonArray(Serialize(notifications));
    }
  }

  /**
   * Two items "a" (at t0) and "b" (at t0 + 10) against a watermark of t0 + 5:
   * "a" is read and "b" is not; marking "b" read, then everything read at
   * t0 + 20, leaves nothing unread.
   */
  method ReadStateScenario(t0: int, a: Notification, b: Notification)
    requires a.id == "a" && a.timestamp == t0 && b.id == "b" && b.timestamp == t0 + 10
  {
    var vm := new NotificationViewModel(Some(t0 + 5), None, Blank, Attached);
    vm.OnSnapshot(Snapshot([Doc("a", Some(a)), Doc("b", Some(b))]));
    assert SnapshotItems([Doc("a", Some(a)), Doc("b", Some(b))]) == [a, b];
    assert vm.notifications[0].read && !vm.notifications[1].read;
    assert vm.UnreadCount() == 1;
    vm.MarkAsRead("b");
    assert vm.ReadIdSet() == {"b"};
    assert vm.notifications[1].read;
    vm.MarkAllAsRead(t0 + 20);
    assert vm.LastSeen() == t0 + 20 && vm.ReadIdSet() == {};
    assert vm.notifications[0].read && vm.notifications[1].read;
  }
}
