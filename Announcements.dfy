/**
 * The public announcements page (app/announcements/page.tsx): the fetch
 * fallback, the category filter and the category colours, which the admin
 * page uses as well.
 */
module Announcements {
  import opened Common

  datatype Announcement = Announcement(
    id: string,
    title: string,
    content: string,
    category: string,
    imageUrl: Option<string>,
    isPinned: bool,
    createdAt: string)

  /** The filter tab that shows everything; it is active when the page opens. */
  const AllCategories := "ทั้งหมด"

  const Categories: seq<string> := [AllCategories, "ข่าวด่วน", "กิจกรรม", "ประกาศทั่วไป", "ผลงานสภา"]

  const CategoryColors: map<string, string> := map[
    "ข่าวด่วน" := "bg-red-500/20 text-red-400 border-red-500/30",
    "กิจกรรม" := "bg-blue-500/20 text-blue-400 border-blue-500/30",
    "ประกาศทั่วไป" := "bg-gray-500/20 text-gray-400 border-gray-500/30",
    "ผลงานสภา" := "bg-green-500/20 text-green-400 border-green-500/30"]

  const DefaultColor := "bg-white/10 text-gray-400 border-white/10"

  /** `CATEGORY_COLORS[category] || default`. */
  function CategoryColor(category: string): string
  {
    if category in CategoryColors then CategoryColors[category] else DefaultColor
  }

  /** Known categories get their own colours, which are all different; anything else the default. */
  lemma CategoryColorFallback(category: string)
    ensures category !in CategoryColors ==> CategoryColor(category) == DefaultColor
    ensures category in CategoryColors ==> CategoryColor(category) != DefaultColor
    ensures forall c, d :: c in CategoryColors && d in CategoryColors && c != d ==>
      CategoryColors[c] != CategoryColors[d]
    ensures forall i :: 1 <= i < |Categories| ==> Categories[i] in CategoryColors
  {
  }

  /** `announcements.filter(a => a.category === category)`. */
  function FilterCategory(items: seq<Announcement>, category: string): (r: seq<Announcement>)
    ensures |r| <= |items|
    ensures forall a :: a in r <==> a in items && a.category == category
  {
    if items == [] then []
    else if items[0].category == category then [items[0]] + FilterCategory(items[1..], category)
    else FilterCategory(items[1..], category)
  }

  /** `filteredAnnouncements`. */
  function Visible(items: seq<Announcement>, active: string): seq<Announcement>
  {
    if active == AllCategories then items else FilterCategory(items, active)
  }

  /** The filter keeps the matching items in their original order. */
  lemma {:induction false} FilterIsSubsequence(items: seq<Announcement>, category: string)
    ensures IsSubsequence(FilterCategory(items, category), items)
  {
    if items != [] {
      FilterIsSubsequence(items[1..], category);
      var rest := FilterCategory(items[1..], category);
      if items[0].category != category {
        TailSubsequence(rest, items);
      }
    }
  }

  /**
   * The filter keeps every matching item as often as the list holds it and
   * drops every other item; with `FilterIsSubsequence` this pins the result
   * down to the one list `.filter` returns.
   */
  lemma {:induction false} FilterCounts(items: seq<Announcement>, category: string)
    ensures forall a :: multiset(FilterCategory(items, category))[a] ==
                        (if a.category == category then multiset(items)[a] else 0)
  {
    if items != [] {
      FilterCounts(items[1..], category);
      assert items == [items[0]] + items[1..];
    }
  }

  /** A subsequence of the tail is a subsequence of the whole. */
  lemma {:induction false} TailSubsequence<T>(a: seq<T>, b: seq<T>)
    requires b != [] && IsSubsequence(a, b[1..])
    ensures IsSubsequence(a, b)
    decreases |b|, 0
  {
    if a != [] && a[0] == b[0] {
      SubsequenceDropHead(a, b[1..]);
    }
  }

  /** Dropping the first element of a subsequence keeps it a subsequence. */
  lemma {:induction false} SubsequenceDropHead<T>(a: seq<T>, b: seq<T>)
    requires a != [] && IsSubsequence(a, b)
    ensures IsSubsequence(a[1..], b)
    decreases |b|, 1
  {
    if a[0] == b[0] {
      TailSubsequence(a[1..], b);
    } else {
      SubsequenceDropHead(a, b[1..]);
      TailSubsequence(a[1..], b);
    }
  }

  /**
   * The shown list: everything under "ทั้งหมด", otherwise exactly the items of
   * the active category, in their original order, each as often as the list
   * holds it.
   */
  lemma VisibleFaithful(items: seq<Announcement>, active: string)
    ensures active == AllCategories ==> Visible(items, active) == items
    ensures active != AllCategories ==>
      forall a :: multiset(Visible(items, active))[a] ==
                  (if a.category == active then multiset(items)[a] else 0)
    ensures active != AllCategories ==>
      forall a :: a in Visible(items, active) <==> a in items && a.category == active
    ensures IsSubsequence(Visible(items, active), items)
  {
    if active == AllCategories {
      SubsequenceReflexive(items);
    } else {
      FilterIsSubsequence(items, active);
      FilterCounts(items, active);
    }
  }

  lemma {:induction false} SubsequenceReflexive<T>(s: seq<T>)
    ensures IsSubsequence(s, s)
  {
    if s != [] {
      SubsequenceReflexive(s[1..]);
    }
  }

  /** The texts of the four mock announcements. */
  const MockTitles: seq<string> := [
    "🎉 สภานักเรียน GenZ Ignite เปิดทำการแล้ว!",
    "กำหนดการ Sport Day 2569",
    "ซ่อมพัดลมอาคาร 5 เสร็จเรียบร้อย",
    "เปิดรับสมัครตัวแทนห้องเรียน"]

  const MockContents: seq<string> := [
    "พวกเราพร้อมทำงานเพื่อเพื่อนนักเรียนทุกคน ติดตามข่าวสาร นโยบาย และแจ้งเรื่องร้องเรียนได้ที่เว็บไซต์นี้ สภานักเรียนชุดใหม่จะเริ่มปฏิบัติหน้าที่ตั้งแต่วันนี้เป็นต้นไป โดยมีเป้าหมายในการพัฒนาคุณภาพชีวิตของนักเรียนทุกคนในโรงเรียน",
    "งานกีฬาสีประจำปีจะจัดขึ้นวันที่ 15-17 มีนาคม 2569 นักเรียนทุกคนสามารถลงทะเบียนได้ที่ห้องสภาฯ ตั้งแต่วันนี้ถึง 10 มีนาคม กีฬาที่เปิดรับสมัคร: ฟุตบอล, บาสเก็ตบอล, วอลเลย์บอล, แบดมินตัน, E-Sport",
    "สภานักเรียนได้ประสานงานกับฝ่ายอาคารสถานที่ ดำเนินการซ่อมพัดลมชำรุดทั้ง 12 ตัวเรียบร้อยแล้ว ขอบคุณทุกเสียงที่แจ้งเข้ามา",
    "สภานักเรียนเปิดรับสมัครตัวแทนห้องเรียนเพื่อร่วมประชุมสภาฯ ประจำเดือน ห้องเรียนละ 2 คน สมัครได้ที่ห้องสภาฯ หรือแจ้งผ่านเว็บไซต์"]

  /** The four announcements shown when the table is empty, with their creation times. */
  function MockAnnouncements(now: string, dayAgo: string, twoDaysAgo: string, threeDaysAgo: string): seq<Announcement>
  {
    [ Announcement("1", MockTitles[0], MockContents[0], "ข่าวด่วน", None, true, now),
      Announcement("2", MockTitles[1], MockContents[1], "กิจกรรม", None, false, dayAgo),
      Announcement("3", MockTitles[2], MockContents[2], "ผลงานสภา", None, false, twoDaysAgo),
      Announcement("4", MockTitles[3], MockContents[3], "ประกาศทั่วไป", None, false, threeDaysAgo) ]
  }

  /**
   * The loaded list: rows when there are some, the four mock items when the
   * query gave none (a returned query error reads as no rows), and nothing
   * when the call threw.
   */
  function Loaded(f: Fetch<Announcement>, now: string, d1: string, d2: string, d3: string): seq<Announcement>
  {
    match f
    case Rows(rows) => if |rows| > 0 then rows else MockAnnouncements(now, d1, d2, d3)
    case FetchError => []
  }

  /** The fallback rules. */
  lemma LoadedFallback(f: Fetch<Announcement>, now: string, d1: string, d2: string, d3: string)
    ensures f.Rows? && f.rows != [] ==> Loaded(f, now, d1, d2, d3) == f.rows
    ensures f.Rows? && f.rows == [] ==> Loaded(f, now, d1, d2, d3) == MockAnnouncements(now, d1, d2, d3)
    ensures f.FetchError? ==> Loaded(f, now, d1, d2, d3) == []
  {
  }

  /** On the mock list every category tab shows exactly one item. */
  lemma MockOnePerCategory(now: string, d1: string, d2: string, d3: string)
    ensures var m := MockAnnouncements(now, d1, d2, d3);
      && Visible(m, "ข่าวด่วน") == [m[0]]
      && Visible(m, "กิจกรรม") == [m[1]]
      && Visible(m, "ผลงานสภา") == [m[2]]
      && Visible(m, "ประกาศทั่วไป") == [m[3]]
      && Visible(m, AllCategories) == m
  {
    OnePerCategory(MockAnnouncements(now, d1, d2, d3), "ข่าวด่วน", "กิจกรรม", "ผลงานสภา", "ประกาศทั่วไป");
  }

  /** Four items with four different categories, none of them the "all" tab. */
  lemma OnePerCategory(m: seq<Announcement>, c0: string, c1: string, c2: string, c3: string)
    requires |m| == 4 && m[0].category == c0 && m[1].category == c1 && m[2].category == c2 && m[3].category == c3
    requires c0 != c1 && c0 != c2 && c0 != c3 && c1 != c2 && c1 != c3 && c2 != c3
    requires AllCategories !in [c0, c1, c2, c3]
    ensures Visible(m, c0) == [m[0]] && Visible(m, c1) == [m[1]]
    ensures Visible(m, c2) == [m[2]] && Visible(m, c3) == [m[3]]
  {
    FilterSingle(m, c0, 0);
    FilterSingle(m, c1, 1);
    FilterSingle(m, c2, 2);
    FilterSingle(m, c3, 3);
  }

  /** When exactly one item has the category, the filter yields that item alone. */
  lemma {:induction false} FilterSingle(items: seq<Announcement>, category: string, k: int)
    requires 0 <= k < |items| && items[k].category == category
    requires forall j :: 0 <= j < |items| && j != k ==> items[j].category != category
    ensures FilterCategory(items, category) == [items[k]]
  {
    if k == 0 {
      NoneMatch(items[1..], category);
    } else {
      FilterSingle(items[1..], category, k - 1);
    }
  }

  lemma {:induction false} NoneMatch(items: seq<Announcement>, category: string)
    requires forall j :: 0 <= j < |items| ==> items[j].category != category
    ensures FilterCategory(items, category) == []
  {
    if items != [] {
      NoneMatch(items[1..], category);
    }
  }
}
