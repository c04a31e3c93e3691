/**
 * The decision logic of app/.../data/repository/LostFoundRepository.kt.
 *
 * Firestore is modelled as the fields of class LostFoundRepository: the
 * "items" collection as a map from document id to item, each user's
 * "history" sub-collection as a map of maps, and "global_notifications" as
 * a sequence. The device preference "last_notif_ts" is an Option (None when
 * nothing is stored). Anonymous sign-in, the id Firestore gives a new
 * document, the image conversion, the notification write's success and the
 * clock are parameters.
 */
module Repository {
  import opened Optional
  import opened Text
  import opened Items
  import opened WhatsApp
  import opened Images

  /** Kotlin's `Result`: the failure carries the exception's message (`null` is None). */
  datatype Outcome<T> = Success(value: T) | Failure(message: Option<string>)

  /** What `ensureAuthenticated` produced: the uid, or the exception it threw. */
  datatype Auth = SignedIn(uid: string) | SignInFailed(message: Option<string>)

  const NotFound := "Laporan tidak ditemukan"
  const NoDeletePermission := "Anda tidak memiliki izin untuk menghapus laporan ini"
  const NoEditPermission := "Anda tidak memiliki izin untuk mengubah laporan ini"

  // ---------------------------------------------------------------------
  // Ownership

  /** `item?.userId == userId`: a missing item is owned by nobody. */
  predicate Owns(stored: Option<LostFoundItem>, uid: string) {
    stored.Some? && stored.value.userId == uid
  }

  function Lookup(items: map<string, LostFoundItem>, id: string): (r: Option<LostFoundItem>)
    ensures r.Some? <==> id in items
    ensures r.Some? ==> r.value == items[id]
  {
    if id in items then Some(items[id]) else None
  }

  // ---------------------------------------------------------------------
  // Listing: client-side filter and sort, and what the listeners emit

  predicate SortedByCreatedAtDesc(s: seq<LostFoundItem>) {
    forall i, j :: 0 <= i < j < |s| ==> s[i].createdAt >= s[j].createdAt
  }

  lemma SortedTail(s: seq<LostFoundItem>)
    requires s != [] && SortedByCreatedAtDesc(s)
    ensures SortedByCreatedAtDesc(s[1..])
  {
    var t := s[1..];
    forall i, j | 0 <= i < j < |t|
      ensures t[i].createdAt >= t[j].createdAt
    {
      assert t[i] == s[i + 1] && t[j] == s[j + 1];
    }
  }

  /** No item of `r` was created after `t`. */
  predicate NoneNewerThan(t: int, r: seq<LostFoundItem>) {
    forall z :: z in r ==> z.createdAt <= t
  }

  lemma SortedHeadIsNewest(s: seq<LostFoundItem>)
    requires s != [] && SortedByCreatedAtDesc(s)
    ensures NoneNewerThan(s[0].createdAt, s)
  {
    forall z | z in s
      ensures z.createdAt <= s[0].createdAt
    {
      var k :| 0 <= k < |s| && s[k] == z;
      if k > 0 {
        assert s[0].createdAt >= s[k].createdAt;
      }
    }
  }

  lemma SortedCons(y: LostFoundItem, r: seq<LostFoundItem>)
    requires SortedByCreatedAtDesc(r) && NoneNewerThan(y.createdAt, r)
    ensures SortedByCreatedAtDesc([y] + r)
  {
    var s := [y] + r;
    forall i, j | 0 <= i < j < |s|
      ensures s[i].createdAt >= s[j].createdAt
    {
      assert s[j] == r[j - 1];
      if i > 0 {
        assert s[i] == r[i - 1];
      } else {
        assert r[j - 1] in r;
      }
    }
  }

  /** Puts `x` in front of the first element that is not newer than it. */
  function InsertByCreatedAtDesc(x: LostFoundItem, s: seq<LostFoundItem>): (r: seq<LostFoundItem>)
    requires SortedByCreatedAtDesc(s)
    ensures SortedByCreatedAtDesc(r)
    ensures multiset(r) == multiset(s) + multiset{x}
    ensures forall z :: z in r <==> z in s || z == x
  {
    if s == [] then [x]
    else if s[0].createdAt <= x.createdAt then
      SortedHeadIsNewest(s);
      SortedCons(x, s);
      [x] + s
    else
      var t := s[1..];
      assert s == [s[0]] + t;
      SortedTail(s);
      SortedHeadIsNewest(s);
      var rest := InsertByCreatedAtDesc(x, t);
      assert NoneNewerThan(s[0].createdAt, rest);
      SortedCons(s[0], rest);
      [s[0]] + rest
  }

  /** `sortedByDescending { it.createdAt }`. */
  function SortByCreatedAtDesc(s: seq<LostFoundItem>): (r: seq<LostFoundItem>)
    ensures SortedByCreatedAtDesc(r)
    ensures multiset(r) == multiset(s)
  {
    if s == [] then []
    else
      assert s == [s[0]] + s[1..];
      InsertByCreatedAtDesc(s[0], SortByCreatedAtDesc(s[1..]))
  }

  /** The items created at moment `t`, in order. */
  function CreatedAt(s: seq<LostFoundItem>, t: int): seq<LostFoundItem> {
    if s == [] then []
    else (if s[0].createdAt == t then [s[0]] else []) + CreatedAt(s[1..], t)
  }

  lemma CreatedAtCons(y: LostFoundItem, r: seq<LostFoundItem>, t: int)
    ensures CreatedAt([y] + r, t) == (if y.createdAt == t then [y] else []) + CreatedAt(r, t)
  {
    assert ([y] + r)[1..] == r;
  }

  lemma {:induction false} InsertKeepsTies(x: LostFoundItem, s: seq<LostFoundItem>, t: int)
    requires SortedByCreatedAtDesc(s)
    ensures CreatedAt(InsertByCreatedAtDesc(x, s), t) ==
            (if x.createdAt == t then [x] else []) + CreatedAt(s, t)
  {
    if s == [] {
      CreatedAtCons(x, [], t);
    } else if s[0].createdAt <= x.createdAt {
      CreatedAtCons(x, s, t);
    } else {
      var t0 := s[1..];
      assert s == [s[0]] + t0;
      SortedTail(s);
      var rest := InsertByCreatedAtDesc(x, t0);
      InsertKeepsTies(x, t0, t);
      CreatedAtCons(s[0], rest, t);
      CreatedAtCons(s[0], t0, t);
      var hx := if x.createdAt == t then [x] else [];
      var h0 := if s[0].createdAt == t then [s[0]] else [];
      if hx == [] {
        assert hx + CreatedAt(t0, t) == CreatedAt(t0, t);
        assert hx + CreatedAt(s, t) == CreatedAt(s, t);
      } else {
        assert h0 == [];
        assert h0 + (hx + CreatedAt(t0, t)) == hx + CreatedAt(t0, t);
        assert CreatedAt(s, t) == CreatedAt(t0, t);
      }
    }
  }

  /** The sort is stable: items created at the same moment keep their order. */
  lemma {:induction false} SortIsStable(s: seq<LostFoundItem>, t: int)
    ensures CreatedAt(SortByCreatedAtDesc(s), t) == CreatedAt(s, t)
  {
    if s != [] {
      SortIsStable(s[1..], t);
      InsertKeepsTies(s[0], SortByCreatedAtDesc(s[1..]), t);
    }
  }

  /** A list already in order comes out of the sort unchanged. */
  lemma {:induction false} SortOfSorted(s: seq<LostFoundItem>)
    requires SortedByCreatedAtDesc(s)
    ensures SortByCreatedAtDesc(s) == s
  {
    if s != [] {
      var t := s[1..];
      SortedTail(s);
      SortOfSorted(t);
      assert s == [s[0]] + t;
    }
  }

  /** One callback of a collection listener, or the sign-in failure before it. */
  datatype ListenerEvent =
    | AuthFailed
    | QueryError(message: Option<string>)
    | Snapshot(docs: seq<LostFoundItem>)   // documents already converted, each with its id

  /** The error that makes `getAllItems`/`getUserItems` retry without `orderBy`. */
  predicate IsIndexError(message: Option<string>) {
    message.Some? && (Contains(message.value, "index") || Contains(message.value, "FAILED_PRECONDITION"))
  }

  /** What a listener does with an event: send a list, or attach the fallback query. */
  datatype Reaction = Emit(list: seq<LostFoundItem>) | UseFallback

  /** The main listener of `getAllItems(type)`; the server already ordered the snapshot. */
  function AllItemsReaction(t: Option<ItemType>, event: ListenerEvent): (r: Reaction)
    ensures r.UseFallback? <==> event.QueryError? && IsIndexError(event.message)
    ensures (event.AuthFailed? || (event.QueryError? && !IsIndexError(event.message))) ==> r == Emit([])
    ensures event.Snapshot? ==> r == Emit(FilterByOptionalType(event.docs, t))
  {
    match event
    case AuthFailed => Emit([])
    case QueryError(message) => if IsIndexError(message) then UseFallback else Emit([])
    case Snapshot(docs) => Emit(FilterByOptionalType(docs, t))
  }

  /** The fallback listener of `getAllItems(type)`: filter, then sort on the client. */
  function AllItemsFallback(t: Option<ItemType>, event: ListenerEvent): (r: seq<LostFoundItem>)
    ensures !event.Snapshot? ==> r == []
    ensures event.Snapshot? ==>
              SortedByCreatedAtDesc(r) &&
              multiset(r) == multiset(FilterByOptionalType(event.docs, t)) &&
              (forall x :: x in r <==> x in event.docs && (t.None? || x.itemType == t.value))
  {
    match event
    case Snapshot(docs) =>
      var r := SortByCreatedAtDesc(FilterByOptionalType(docs, t));
      assert forall x :: x in r <==> x in multiset(r);
      r
    case _ => []
  }

  /** The main listener of `getUserItems(userId)`. */
  function UserItemsReaction(event: ListenerEvent): (r: Reaction)
    ensures r.UseFallback? <==> event.QueryError? && IsIndexError(event.message)
    ensures (event.AuthFailed? || (event.QueryError? && !IsIndexError(event.message))) ==> r == Emit([])
    ensures event.Snapshot? ==> r == Emit(event.docs)
  {
    match event
    case AuthFailed => Emit([])
    case QueryError(message) => if IsIndexError(message) then UseFallback else Emit([])
    case Snapshot(docs) => Emit(docs)
  }

  /** The fallback listener of `getUserItems`: sort only, nothing is filtered out. */
  function UserItemsFallback(event: ListenerEvent): (r: seq<LostFoundItem>)
    ensures !event.Snapshot? ==> r == []
    ensures event.Snapshot? ==> SortedByCreatedAtDesc(r) && multiset(r) == multiset(event.docs)
  {
    match event
    case Snapshot(docs) => SortByCreatedAtDesc(docs)
    case _ => []
  }

  /** The listener of `getUserHistory`: every error sends an empty list. */
  function HistoryReaction(event: ListenerEvent): (r: seq<LostFoundItem>)
    ensures !event.Snapshot? ==> r == []
    ensures event.Snapshot? ==> r == event.docs
  {
    match event
    case Snapshot(docs) => docs
    case _ => []
  }

  /** When the server's order and the fallback's agree: an ordered snapshot is sent as it is. */
  lemma FallbackAgreesOnOrderedSnapshot(t: Option<ItemType>, docs: seq<LostFoundItem>)
    requires SortedByCreatedAtDesc(docs)
    ensures AllItemsFallback(t, Snapshot(docs)) == FilterByOptionalType(docs, t)
  {
    var f := FilterByOptionalType(docs, t);
    SubsequenceSorted(f, docs);
    SortOfSorted(f);
  }

  lemma {:induction false} SubsequenceSorted(r: seq<LostFoundItem>, s: seq<LostFoundItem>)
    requires IsSubsequence(r, s) && SortedByCreatedAtDesc(s)
    ensures SortedByCreatedAtDesc(r)
    decreases |r| + |s|
  {
    if r != [] && s != [] {
      assert SortedByCreatedAtDesc(s[1..]) by {
        assert forall i :: 0 <= i < |s| - 1 ==> s[1..][i] == s[i + 1];
      }
      if r[0] == s[0] && IsSubsequence(r[1..], s[1..]) {
        SubsequenceSorted(r[1..], s[1..]);
        SubsequenceMembers(r[1..], s[1..]);
        forall j | 0 < j < |r|
          ensures r[0].createdAt >= r[j].createdAt
        {
          assert r[1..][j - 1] in s[1..];
        }
      } else {
        SubsequenceSorted(r, s[1..]);
      }
    }
  }

  lemma {:induction false} SubsequenceMembers(r: seq<LostFoundItem>, s: seq<LostFoundItem>)
    requires IsSubsequence(r, s)
    ensures forall x :: x in r ==> x in s
    decreases |r| + |s|
  {
    if r != [] && s != [] {
      if r[0] == s[0] && IsSubsequence(r[1..], s[1..]) {
        SubsequenceMembers(r[1..], s[1..]);
        assert forall x :: x in r ==> x == r[0] || x in r[1..];
      } else {
        SubsequenceMembers(r, s[1..]);
      }
    }
  }

  // ---------------------------------------------------------------------
  // Global notifications: the per-device rate limit and the expiry

  /** Thirty seconds per device between global notifications. */
  const RateLimitMs := 30000
  /** `7L * 24 * 60 * 60 * 1000`. */
  const NotificationTtlMs := 7 * 24 * 60 * 60 * 1000

  /** The gate: `now - prefs.getLong("last_notif_ts", 0L) >= 30_000L`. */
  predicate RateLimitOpen(lastNotifTs: Option<int>, now: int)
    ensures lastNotifTs.None? ==> (RateLimitOpen(lastNotifTs, now) <==> now >= RateLimitMs)
    ensures lastNotifTs.Some? ==> (RateLimitOpen(lastNotifTs, now) <==> now >= lastNotifTs.value + RateLimitMs)
  {
    now - lastNotifTs.GetOr(0) >= RateLimitMs
  }

  /** Once open, the gate stays open until the next write. */
  lemma RateLimitStaysOpen(lastNotifTs: Option<int>, now: int, later: int)
    requires RateLimitOpen(lastNotifTs, now) && later >= now
    ensures RateLimitOpen(lastNotifTs, later)
  {
  }

  /** A document of "global_notifications" (its body text and server timestamp are left out). */
  datatype GlobalNotification = GlobalNotification(
    title: string,
    expireAt: int,
    data: map<string, string>,
    userId: string)

  /** The notification for a report, written at `now`. */
  function ReportNotification(titlePrefix: string, itemName: string, itemId: string, kind: string,
                              uid: string, now: int): (r: GlobalNotification)
    ensures r.expireAt - now == WeekMs
    ensures r.data == map["itemId" := itemId, "type" := kind]
    ensures StartsWith(r.title, titlePrefix) && r.title[|titlePrefix|..] == itemName
    ensures r.userId == uid
  {
    GlobalNotification(titlePrefix + itemName, now + NotificationTtlMs,
                       map["itemId" := itemId, "type" := kind], uid)
  }

  /** One attempt to notify: when, and whether Firestore accepted the write. */
  datatype Attempt = Attempt(now: int, writeSucceeds: bool)

  predicate Writes(lastNotifTs: Option<int>, a: Attempt) {
    RateLimitOpen(lastNotifTs, a.now) && a.writeSucceeds
  }

  /** The stored "last_notif_ts" after an attempt: it moves only when a write succeeded. */
  function NextLastNotifTs(lastNotifTs: Option<int>, a: Attempt): (r: Option<int>)
    ensures Writes(lastNotifTs, a) ==> r == Some(a.now)
    ensures !Writes(lastNotifTs, a) ==> r == lastNotifTs
  {
    if Writes(lastNotifTs, a) then Some(a.now) else lastNotifTs
  }

  /** The times of the notifications a run of attempts writes. */
  function WrittenTimes(lastNotifTs: Option<int>, attempts: seq<Attempt>): seq<int>
    decreases |attempts|
  {
    if attempts == [] then []
    else
      (if Writes(lastNotifTs, attempts[0]) then [attempts[0].now] else []) +
      WrittenTimes(NextLastNotifTs(lastNotifTs, attempts[0]), attempts[1..])
  }

  /**
   * Whatever the clock does, each written notification is at least 30 s
   * after the previous one (the first: after the stored time, 0 by default).
   */
  lemma {:induction false} WrittenTimesSpaced(lastNotifTs: Option<int>, attempts: seq<Attempt>)
    ensures var w := WrittenTimes(lastNotifTs, attempts);
            (|w| > 0 ==> w[0] - lastNotifTs.GetOr(0) >= RateLimitMs) &&
            forall k :: 0 < k < |w| ==> w[k] - w[k - 1] >= RateLimitMs
    decreases |attempts|
  {
    if attempts != [] {
      var a := attempts[0];
      var next := NextLastNotifTs(lastNotifTs, a);
      WrittenTimesSpaced(next, attempts[1..]);
      var rest := WrittenTimes(next, attempts[1..]);
      if Writes(lastNotifTs, a) {
        var w := [a.now] + rest;
        forall k | 0 < k < |w|
          ensures w[k] - w[k - 1] >= RateLimitMs
        {
          assert w[k] == rest[k - 1];
          if k > 1 {
            assert w[k - 1] == rest[k - 2];
          }
        }
      }
    }
  }

  /** A failed write leaves the gate as it was, so the next attempt may write at once. */
  lemma FailedWriteKeepsGateOpen(lastNotifTs: Option<int>, a: Attempt, b: Attempt)
    requires RateLimitOpen(lastNotifTs, a.now) && !a.writeSucceeds && b.writeSucceeds && b.now >= a.now
    ensures Writes(NextLastNotifTs(lastNotifTs, a), b)
  {
  }

  // ---------------------------------------------------------------------
  // addItem: the stored item

  /** `item.copy(userId = uid).copy(imageUrl = ..., imageStoragePath = "", isCompleted = false)`. */
  function StoredItem(item: LostFoundItem, uid: string, imageUrl: string): (r: LostFoundItem)
    ensures r == item.(userId := uid, imageUrl := imageUrl, imageStoragePath := "", isCompleted := false)
  {
    item.(userId := uid).(imageUrl := imageUrl, imageStoragePath := "", isCompleted := false)
  }

  /** The image text `addItem` stores: "" without an image, else the conversion's data URL or "". */
  function ImageUrlFor(image: Option<Conversion>): (r: string)
    ensures r == "" || IsBase64Image(r)
    ensures image.None? ==> r == ""
  {
    match image
    case None => ""
    case Some(c) => UriToBase64(c)
  }

  /**
   * Whatever the caller put in them, a stored item belongs to the signed-in
   * user, is open, has no storage path and carries the image text (blank or
   * a data URL); every other field is the caller's.
   */
  lemma StoredItemBelongsToCaller(item: LostFoundItem, uid: string, image: Option<Conversion>)
    ensures var r := StoredItem(item, uid, ImageUrlFor(image));
            && Owns(Some(r), uid)
            && !r.isCompleted
            && r.imageStoragePath == ""
            && (r.imageUrl == "" || IsBase64Image(r.imageUrl))
            && (image.None? ==> r.imageUrl == "")
            && r.id == item.id && r.itemType == item.itemType && r.itemName == item.itemName
            && r.category == item.category && r.location == item.location
            && r.description == item.description && r.whatsappNumber == item.whatsappNumber
            && r.createdAt == item.createdAt
  {
  }

  // ---------------------------------------------------------------------
  // updateItem: the patch

  /** The item fields `updateItem` may write; `FieldName` is the Firestore key of each. */
  datatype Field = ItemNameField | CategoryField | LocationField | DescriptionField | WhatsAppNumberField | ImageUrlField

  function FieldName(f: Field): string {
    match f
    case ItemNameField => "itemName"
    case CategoryField => "category"
    case LocationField => "location"
    case DescriptionField => "description"
    case WhatsAppNumberField => "whatsappNumber"
    case ImageUrlField => "imageUrl"
  }

  /** Distinct fields are written under distinct keys, so a map keyed by `Field` is the source's map. */
  lemma FieldNameInjective(f: Field, g: Field)
    ensures FieldName(f) == FieldName(g) ==> f == g
  {
    var a, b := FieldName(f), FieldName(g);
    if a == b {
      assert |a| == |b| && a[1] == b[1];
    }
  }

  /** `if (v != null) updates[key] = v`. */
  function PutIf(m: map<Field, string>, key: Field, v: Option<string>): map<Field, string> {
    if v.Some? then m[key := v.value] else m
  }

  /** The `updates` map of `updateItem`, as a function of its arguments. */
  function UpdatePatch(itemName: Option<string>, category: Option<Category>, location: Option<string>,
                       description: Option<string>, whatsappNumber: Option<string>,
                       image: Option<Conversion>): (r: map<Field, string>)
    ensures ItemNameField in r <==> itemName.Some?
    ensures CategoryField in r <==> category.Some?
    ensures LocationField in r <==> location.Some?
    ensures DescriptionField in r <==> description.Some?
    ensures WhatsAppNumberField in r <==> whatsappNumber.Some?
    ensures ImageUrlField in r <==> image.Some? && UriToBase64(image.value) != ""
  {
    var url := if image.Some? then UriToBase64(image.value) else "";
    var m1 := PutIf(map[], ItemNameField, itemName);
    var m2 := PutIf(m1, CategoryField, if category.Some? then Some(CategoryName(category.value)) else None);
    var m3 := PutIf(m2, LocationField, location);
    var m4 := PutIf(m3, DescriptionField, description);
    var m5 := PutIf(m4, WhatsAppNumberField,
                    if whatsappNumber.Some? then Some(FormatPhoneNumber(whatsappNumber.value)) else None);
    PutIf(m5, ImageUrlField, if url != "" then Some(url) else None)
  }

  /** Each written field carries its argument: the category by name, the number formatted, the image as a data URL. */
  lemma UpdatePatchValues(itemName: Option<string>, category: Option<Category>, location: Option<string>,
                          description: Option<string>, whatsappNumber: Option<string>,
                          image: Option<Conversion>)
    ensures var r := UpdatePatch(itemName, category, location, description, whatsappNumber, image);
            && (itemName.Some? ==> r[ItemNameField] == itemName.value)
            && (category.Some? ==> r[CategoryField] == CategoryName(category.value))
            && (location.Some? ==> r[LocationField] == location.value)
            && (description.Some? ==> r[DescriptionField] == description.value)
            && (whatsappNumber.Some? ==> r[WhatsAppNumberField] == FormatPhoneNumber(whatsappNumber.value))
            && (ImageUrlField in r ==> IsBase64Image(r[ImageUrlField]) && r[ImageUrlField] == UriToBase64(image.value))
  {
  }

  /** The conditional inserts of `updateItem`, one statement per argument. */
  method BuildUpdates(itemName: Option<string>, category: Option<Category>, location: Option<string>,
                      description: Option<string>, whatsappNumber: Option<string>,
                      image: Option<Conversion>) returns (updates: map<Field, string>)
    ensures updates == UpdatePatch(itemName, category, location, description, whatsappNumber, image)
  {
    updates := map[];
    if itemName.Some? { updates := updates[ItemNameField := itemName.value]; }
    assert updates == PutIf(map[], ItemNameField, itemName);
    ghost var m := updates;
    if category.Some? { updates := updates[CategoryField := CategoryName(category.value)]; }
    assert updates == PutIf(m, CategoryField, if category.Some? then Some(CategoryName(category.value)) else None);
    m := updates;
    if location.Some? { updates := updates[LocationField := location.value]; }
    assert updates == PutIf(m, LocationField, location);
    m := updates;
    if description.Some? { updates := updates[DescriptionField := description.value]; }
    assert updates == PutIf(m, DescriptionField, description);
    m := updates;
    if whatsappNumber.Some? {
      var formattedNumber := FormatPhoneNumber(whatsappNumber.value);
      updates := updates[WhatsAppNumberField := formattedNumber];
    }
    assert updates == PutIf(m, WhatsAppNumberField,
                            if whatsappNumber.Some? then Some(FormatPhoneNumber(whatsappNumber.value)) else None);
    m := updates;
    var url := "";
    if image.Some? {
      var imageUrl := UriToBase64(image.value);
      if imageUrl != "" {
        updates := updates[ImageUrlField := imageUrl];
      }
      url := imageUrl;
    }
    assert updates == PutIf(m, ImageUrlField, if url != "" then Some(url) else None);
  }

  /** Firestore's `update(updates)` on a stored item: each key overwrites its field. */
  function ApplyPatch(item: LostFoundItem, patch: map<Field, string>): (r: LostFoundItem)
    ensures patch == map[] ==> r == item
    ensures r.id == item.id && r.userId == item.userId && r.itemType == item.itemType
    ensures r.isCompleted == item.isCompleted && r.createdAt == item.createdAt
    ensures r.imageStoragePath == item.imageStoragePath
  {
    var category :=
      if CategoryField in patch && CategoryFromName(patch[CategoryField]).Some?
      then CategoryFromName(patch[CategoryField]).value else item.category;
    item.(
      itemName := if ItemNameField in patch then patch[ItemNameField] else item.itemName,
      category := category,
      location := if LocationField in patch then patch[LocationField] else item.location,
      description := if DescriptionField in patch then patch[DescriptionField] else item.description,
      whatsappNumber := if WhatsAppNumberField in patch then patch[WhatsAppNumberField] else item.whatsappNumber,
      imageUrl := if ImageUrlField in patch then patch[ImageUrlField] else item.imageUrl)
  }

  /** Applying a patch sets exactly the given fields, with the category read back from its name. */
  lemma PatchRoundTrip(item: LostFoundItem, itemName: Option<string>, category: Option<Category>,
                       location: Option<string>, description: Option<string>,
                       whatsappNumber: Option<string>, image: Option<Conversion>)
    ensures var r := ApplyPatch(item, UpdatePatch(itemName, category, location, description, whatsappNumber, image));
            && r.itemName == itemName.GetOr(item.itemName)
            && r.category == category.GetOr(item.category)
            && r.location == location.GetOr(item.location)
            && r.description == description.GetOr(item.description)
            && (whatsappNumber.Some? ==> r.whatsappNumber == FormatPhoneNumber(whatsappNumber.value))
            && (whatsappNumber.None? ==> r.whatsappNumber == item.whatsappNumber)
            && (image.Some? && image.value.Encoded? ==> r.imageUrl == JpegDataUrl(image.value.base64))
            && (image.None? || !image.value.Encoded? ==> r.imageUrl == item.imageUrl)
  {
    if category.Some? {
      CategoryNameRoundTrip(category.value);
    }
  }

  /** With no argument given (or only an image that failed to convert) the patch is empty. */
  lemma EmptyPatch(image: Option<Conversion>)
    requires image.None? || !image.value.Encoded?
    ensures UpdatePatch(None, None, None, None, None, image) == map[]
  {
    var p := UpdatePatch(None, None, None, None, None, image);
    assert forall k :: k !in p;
  }

  class LostFoundRepository {
    /** The "items" collection. */
    var items: map<string, LostFoundItem>
    /** "users/{uid}/history", per user. */
    var history: map<string, map<string, LostFoundItem>>
    /** The "global_notifications" collection, in order of writing. */
    var globalNotifications: seq<GlobalNotification>
    /** The device preference "last_notif_ts". */
    var lastNotifTs: Option<int>

    constructor (items0: map<string, LostFoundItem>, lastNotifTs0: Option<int>)
      ensures items == items0 && history == map[] && globalNotifications == [] && lastNotifTs == lastNotifTs0
    {
      items := items0;
      history := map[];
      globalNotifications := [];
      lastNotifTs := lastNotifTs0;
    }

    /** The rate-limited notification write shared by `addItem` and `markAsCompleted`. */
    method Notify(notif: GlobalNotification, now: int, writeSucceeds: bool)
      modifies this`globalNotifications, this`lastNotifTs
      ensures lastNotifTs == NextLastNotifTs(old(lastNotifTs), Attempt(now, writeSucceeds))
      ensures Writes(old(lastNotifTs), Attempt(now, writeSucceeds)) ==>
                globalNotifications == old(globalNotifications) + [notif]
      ensures !Writes(old(lastNotifTs), Attempt(now, writeSucceeds)) ==>
                globalNotifications == old(globalNotifications)
    {
      var lastNotif := lastNotifTs.GetOr(0);
      if now - lastNotif >= RateLimitMs {
        if writeSucceeds {
          globalNotifications := globalNotifications + [notif];
          lastNotifTs := Some(now);
        }
      }
    }

    /**
     * `addItem(item, imageUri)`: the item is stored under the new document id
     * `docId` as the signed-in user's open report, then a "NEW_REPORT"
     * notification goes out if the rate limit allows.
     */
    method AddItem(item: LostFoundItem, image: Option<Conversion>, auth: Auth, docId: string,
                   now: int, notifWriteSucceeds: bool) returns (result: Outcome<string>)
      requires docId !in items  // Firestore's `add` picks an id no document has
      modifies this`items, this`globalNotifications, this`lastNotifTs
      ensures auth.SignInFailed? ==>
                result == Failure(auth.message) && items == old(items) &&
                globalNotifications == old(globalNotifications) && lastNotifTs == old(lastNotifTs)
      ensures auth.SignedIn? ==>
                var stored := StoredItem(item, auth.uid, ImageUrlFor(image));
                result == Success(docId) &&
                items == old(items)[docId := stored] &&
                lastNotifTs == NextLastNotifTs(old(lastNotifTs), Attempt(now, notifWriteSucceeds)) &&
                globalNotifications == old(globalNotifications) +
                  (if Writes(old(lastNotifTs), Attempt(now, notifWriteSucceeds))
                   then [ReportNotification("Laporan Baru: ", stored.itemName, docId, "NEW_REPORT", auth.uid, now)]
                   else [])
    {
      if auth.SignInFailed? {
        return Failure(auth.message);
      }
      var uid := auth.uid;
      var finalItem := StoredItem(item, uid, ImageUrlFor(image));
      items := items[docId := finalItem];
      var notif := ReportNotification("Laporan Baru: ", finalItem.itemName, docId, "NEW_REPORT", uid, now);
      Notify(notif, now, notifWriteSucceeds);
      result := Success(docId);
    }

    /** `deleteItem(itemId, imageStoragePath)`: only the owner may delete; a missing item is reported. */
    method DeleteItem(itemId: string, auth: Auth) returns (result: Outcome<()>)
      modifies this`items
      ensures auth.SignInFailed? ==> result == Failure(auth.message) && items == old(items)
      ensures auth.SignedIn? && itemId !in old(items) ==>
                result == Failure(Some(NotFound)) && items == old(items)
      ensures auth.SignedIn? && itemId in old(items) && old(items)[itemId].userId != auth.uid ==>
                result == Failure(Some(NoDeletePermission)) && items == old(items)
      ensures result.Success? <==> auth.SignedIn? && Owns(Lookup(old(items), itemId), auth.uid)
      ensures result.Success? ==> items == old(items) - {itemId}
    {
      if auth.SignInFailed? {
        return Failure(auth.message);
      }
      var stored := Lookup(items, itemId);
      if stored.None? {
        return Failure(Some(NotFound));
      }
      if stored.value.userId != auth.uid {
        return Failure(Some(NoDeletePermission));
      }
      items := items - {itemId};
      result := Success(());
    }

    /**
     * `markAsCompleted(itemId)`: the owner's item is archived, completed, in
     * their history, a "REPORT_COMPLETED" notification goes out if the rate
     * limit allows, and the item leaves the public collection. A missing item
     * gets the permission error.
     */
    method MarkAsCompleted(itemId: string, auth: Auth, now: int, notifWriteSucceeds: bool)
      returns (result: Outcome<()>)
      modifies this`items, this`history, this`globalNotifications, this`lastNotifTs
      ensures result.Success? <==> auth.SignedIn? && Owns(Lookup(old(items), itemId), auth.uid)
      ensures auth.SignInFailed? ==> result == Failure(auth.message)
      ensures auth.SignedIn? && !Owns(Lookup(old(items), itemId), auth.uid) ==>
                result == Failure(Some(NoEditPermission))
      ensures result.Failure? ==>
                items == old(items) && history == old(history) &&
                globalNotifications == old(globalNotifications) && lastNotifTs == old(lastNotifTs)
      ensures result.Success? ==>
                var item := old(items)[itemId];
                var uid := auth.uid;
                var before := if uid in old(history) then old(history)[uid] else map[];
                items == old(items) - {itemId} &&
                history == old(history)[uid := before[itemId := item.(isCompleted := true)]] &&
                lastNotifTs == NextLastNotifTs(old(lastNotifTs), Attempt(now, notifWriteSucceeds)) &&
                globalNotifications == old(globalNotifications) +
                  (if Writes(old(lastNotifTs), Attempt(now, notifWriteSucceeds))
                   then [ReportNotification("Laporan Selesai: ", item.itemName, itemId, "REPORT_COMPLETED", uid, now)]
                   else [])
    {
      if auth.SignInFailed? {
        return Failure(auth.message);
      }
      var uid := auth.uid;
      var stored := Lookup(items, itemId);
      if !(stored.Some? && stored.value.userId == uid) {
        return Failure(Some(NoEditPermission));
      }
      var item := stored.value;
      var before := if uid in history then history[uid] else map[];
      history := history[uid := before[itemId := item.(isCompleted := true)]];
      var notif := ReportNotification("Laporan Selesai: ", item.itemName, itemId, "REPORT_COMPLETED", uid, now);
      Notify(notif, now, notifWriteSucceeds);
      items := items - {itemId};
      result := Success(());
    }

    /**
     * `updateItem(itemId, ...)`: the owner's item gets the patch; an empty
     * patch writes nothing. A missing item gets the permission error.
     */
    method UpdateItem(itemId: string, auth: Auth, itemName: Option<string>, category: Option<Category>,
                      location: Option<string>, description: Option<string>,
                      whatsappNumber: Option<string>, image: Option<Conversion>)
      returns (result: Outcome<()>)
      modifies this`items
      ensures result.Success? <==> auth.SignedIn? && Owns(Lookup(old(items), itemId), auth.uid)
      ensures auth.SignInFailed? ==> result == Failure(auth.message)
      ensures auth.SignedIn? && !Owns(Lookup(old(items), itemId), auth.uid) ==>
                result == Failure(Some(NoEditPermission))
      ensures result.Failure? ==> items == old(items)
      ensures result.Success? ==>
                var patch := UpdatePatch(itemName, category, location, description, whatsappNumber, image);
                (patch == map[] ==> items == old(items)) &&
                (patch != map[] ==> items == old(items)[itemId := ApplyPatch(old(items)[itemId], patch)])
    {
      if auth.SignInFailed? {
        return Failure(auth.message);
      }
      var existing := Lookup(items, itemId);
      if !(existing.Some? && existing.value.userId == auth.uid) {
        return Failure(Some(NoEditPermission));
      }
      var updates := BuildUpdates(itemName, category, location, description, whatsappNumber, image);
      if |updates| > 0 {
        items := items[itemId := ApplyPatch(items[itemId], updates)];
      }
      result := Success(());
    }
  }

  /**
   * A user adds a report and can then edit and complete it; another user can
   * do neither; a second report 10 s later sends no notification.
   */
  method OwnershipScenario(item: LostFoundItem, now: int)
    requires now >= 0
  {
    var repo := new LostFoundRepository(map[], None);
    var r1 := repo.AddItem(item, None, SignedIn("alice"), "d1", now + RateLimitMs, true);
    assert r1 == Success("d1") && |repo.globalNotifications| == 1;
    var r2 := repo.UpdateItem("d1", SignedIn("bob"), Some("Kunci"), None, None, None, None, None);
    assert r2 == Failure(Some(NoEditPermission));
    var r3 := repo.UpdateItem("d1", SignedIn("alice"), Some("Kunci"), None, None, None, None, None);
    assert r3.Success? && repo.items["d1"].itemName == "Kunci";
    var r4 := repo.AddItem(item, None, SignedIn("alice"), "d2", now + RateLimitMs + 10000, true);
    assert |repo.globalNotifications| == 1;
    var r5 := repo.MarkAsCompleted("d1", SignedIn("bob"), now + 2 * RateLimitMs, true);
    assert r5.Failure? && "d1" in repo.items;
    var r6 := repo.MarkAsCompleted("d1", SignedIn("alice"), now + 2 * RateLimitMs, true);
    assert r6.Success? && "d1" !in repo.items && repo.history["alice"]["d1"].isCompleted;
    var r7 := repo.DeleteItem("d1", SignedIn("alice"));
    assert r7 == Failure(Some(NotFound));
  }
}
