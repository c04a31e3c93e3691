/**
 * The report record (`LostFoundItem`), its two enums and the relative-time
 * label shown on every card (app/.../data/model/LostFoundItem.kt).
 */
module Items {
  import opened Optional
  import opened Text

  datatype ItemType = LOST | FOUND

  datatype Category = ELECTRONICS | ACCESSORIES | DOCUMENTS | OTHER

  /** `Category.displayName`, the Indonesian label shown in the UI. */
  function DisplayName(c: Category): (r: string)
    ensures |r| > 0 && IsAsciiLetter(r[0]) && !IsWhitespace(r[0]) && !IsBlank(r)
  {
    match c
    case ELECTRONICS => "Elektronik"
    case ACCESSORIES => "Aksesoris"
    case DOCUMENTS => "Dokumen"
    case OTHER => "Lainnya"
  }

  /** No two categories share a label. */
  lemma DisplayNameInjective(a: Category, b: Category)
    requires DisplayName(a) == DisplayName(b)
    ensures a == b
  {
  }

  /** `Category.name`: the enum constant's name, which is what Firestore stores. */
  function CategoryName(c: Category): string {
    match c
    case ELECTRONICS => "ELECTRONICS"
    case ACCESSORIES => "ACCESSORIES"
    case DOCUMENTS => "DOCUMENTS"
    case OTHER => "OTHER"
  }

  /** `Category.valueOf(name)`, with None where Kotlin throws. */
  function CategoryFromName(name: string): (r: Option<Category>)
    ensures r.Some? ==> CategoryName(r.value) == name
  {
    if name == "ELECTRONICS" then Some(ELECTRONICS)
    else if name == "ACCESSORIES" then Some(ACCESSORIES)
    else if name == "DOCUMENTS" then Some(DOCUMENTS)
    else if name == "OTHER" then Some(OTHER)
    else None
  }

  /** A category written under its name is read back as the same category. */
  lemma CategoryNameRoundTrip(c: Category)
    ensures CategoryFromName(CategoryName(c)) == Some(c)
  {
  }

  /**
   * A report. The Kotlin property `type` is `itemType` here; `createdAt` is a
   * moment in milliseconds since the epoch.
   */
  datatype LostFoundItem = LostFoundItem(
    id: string,
    userId: string,
    itemType: ItemType,
    itemName: string,
    category: Category,
    location: string,
    description: string,
    imageUrl: string,
    whatsappNumber: string,
    isCompleted: bool,
    createdAt: int,
    imageStoragePath: string)

  /** `LostFoundItem()` with every default; `createdAt = Timestamp.now()`. */
  function DefaultItem(now: int): (r: LostFoundItem)
    ensures r.itemType == LOST && r.category == OTHER && !r.isCompleted
    ensures r.id == r.userId == r.itemName == r.location == r.description == ""
    ensures r.imageUrl == r.whatsappNumber == r.imageStoragePath == ""
    ensures r.createdAt == now
  {
    LostFoundItem("", "", LOST, "", OTHER, "", "", "", "", false, now, "")
  }

  /** r keeps some of the elements of s, in their order. */
  ghost predicate IsSubsequence<T>(r: seq<T>, s: seq<T>)
    decreases |r| + |s|
  {
    if r == [] then true
    else if s == [] then false
    else (r[0] == s[0] && IsSubsequence(r[1..], s[1..])) || IsSubsequence(r, s[1..])
  }

  lemma {:induction false} SubsequenceTransitive<T>(a: seq<T>, b: seq<T>, c: seq<T>)
    requires IsSubsequence(a, b) && IsSubsequence(b, c)
    ensures IsSubsequence(a, c)
    decreases |a| + |b| + |c|
  {
    if a != [] {
      if IsSubsequence(b, c[1..]) {
        SubsequenceTransitive(a, b, c[1..]);
      } else if a[0] == b[0] && IsSubsequence(a[1..], b[1..]) {
        SubsequenceTransitive(a[1..], b[1..], c[1..]);
      } else {
        SubsequenceTransitive(a, b[1..], c[1..]);
      }
    }
  }

  lemma {:induction false} SubsequenceReflexive<T>(s: seq<T>)
    ensures IsSubsequence(s, s)
    decreases |s|
  {
    if s != [] {
      SubsequenceReflexive(s[1..]);
    }
  }

  /** `items.filter { it.type == type }`. */
  function FilterByType(items: seq<LostFoundItem>, t: ItemType): (r: seq<LostFoundItem>)
    ensures forall i :: 0 <= i < |r| ==> r[i].itemType == t
    ensures forall x :: x in r <==> x in items && x.itemType == t
    ensures forall x :: multiset(r)[x] == if x.itemType == t then multiset(items)[x] else 0
    ensures IsSubsequence(r, items)
  {
    if items == [] then []
    else
      assert items == [items[0]] + items[1..];
      if items[0].itemType == t then [items[0]] + FilterByType(items[1..], t)
      else FilterByType(items[1..], t)
  }

  /** `if (type != null) items.filter { it.type == type } else items`. */
  function FilterByOptionalType(items: seq<LostFoundItem>, t: Option<ItemType>): (r: seq<LostFoundItem>)
    ensures t.None? ==> r == items
    ensures t.Some? ==> forall i :: 0 <= i < |r| ==> r[i].itemType == t.value
    ensures forall x :: x in r <==> x in items && (t.None? || x.itemType == t.value)
    ensures forall x :: multiset(r)[x] == if t.None? || x.itemType == t.value then multiset(items)[x] else 0
    ensures IsSubsequence(r, items)
  {
    match t
    case None => SubsequenceReflexive(items); items
    case Some(ty) => FilterByType(items, ty)
  }

  const MinuteMs: int := 60000
  const HourMs: int := 3600000
  const DayMs: int := 86400000
  const WeekMs: int := 604800000

  /** The unit `getTimeAgo` chooses, with the count it prints. */
  datatype TimeAgo = JustNow | MinutesAgo(n: nat) | HoursAgo(n: nat) | DaysAgo(n: nat) | WeeksAgo(n: nat)

  /**
   * The `when` of `getTimeAgo` on `diff = now - createdAt`. For diff >= 0
   * Kotlin's truncating division equals Dafny's, and the first branch takes
   * every negative diff.
   */
  function TimeAgoOf(diff: int): (r: TimeAgo)
    ensures r.JustNow? <==> diff < MinuteMs
    ensures r.MinutesAgo? <==> MinuteMs <= diff < HourMs
    ensures r.HoursAgo? <==> HourMs <= diff < DayMs
    ensures r.DaysAgo? <==> DayMs <= diff < WeekMs
    ensures r.WeeksAgo? <==> WeekMs <= diff
    ensures r.MinutesAgo? ==> 1 <= r.n <= 59 && r.n * MinuteMs <= diff < (r.n + 1) * MinuteMs
    ensures r.HoursAgo? ==> 1 <= r.n <= 23 && r.n * HourMs <= diff < (r.n + 1) * HourMs
    ensures r.DaysAgo? ==> 1 <= r.n <= 6 && r.n * DayMs <= diff < (r.n + 1) * DayMs
    ensures r.WeeksAgo? ==> 1 <= r.n && r.n * WeekMs <= diff < (r.n + 1) * WeekMs
  {
    if diff < MinuteMs then JustNow
    else if diff < HourMs then MinutesAgo(diff / MinuteMs)
    else if diff < DayMs then HoursAgo(diff / HourMs)
    else if diff < WeekMs then DaysAgo(diff / DayMs)
    else WeeksAgo(diff / WeekMs)
  }

  /** Units ordered from the finest to the coarsest. */
  function UnitRank(t: TimeAgo): nat {
    match t
    case JustNow => 0
    case MinutesAgo(_) => 1
    case HoursAgo(_) => 2
    case DaysAgo(_) => 3
    case WeeksAgo(_) => 4
  }

  /** An older report never gets a finer unit than a newer one. */
  lemma TimeAgoUnitMonotone(d1: int, d2: int)
    requires d1 <= d2
    ensures UnitRank(TimeAgoOf(d1)) <= UnitRank(TimeAgoOf(d2))
  {
  }

  /** The label text for a bucket. */
  function TimeAgoText(t: TimeAgo): string {
    match t
    case JustNow => "Baru saja"
    case MinutesAgo(n) => NatToString(n) + " menit lalu"
    case HoursAgo(n) => NatToString(n) + " jam lalu"
    case DaysAgo(n) => NatToString(n) + " hari lalu"
    case WeeksAgo(n) => NatToString(n) + " minggu lalu"
  }

  /** `getTimeAgo()`, with `System.currentTimeMillis()` passed in as `now`. */
  function GetTimeAgo(item: LostFoundItem, now: int): (r: string)
    ensures r == "Baru saja" <==> now - item.createdAt < MinuteMs
    ensures now - item.createdAt >= MinuteMs ==> |r| >= 1 && IsDigit(r[0])
  {
    TimeAgoText(TimeAgoOf(now - item.createdAt))
  }

  /** A report created two and a half minutes ago reads "2 menit lalu". */
  lemma GetTimeAgoExample(item: LostFoundItem)
    ensures GetTimeAgo(item, item.createdAt + 150000) == "2 menit lalu"
  {
  }
}
