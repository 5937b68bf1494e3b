/** The page merge both list screens perform: the fetched page's non-null media
    are appended to the list held so far, and `distinctBy { it.id }` keeps the
    first entry of every id. Also the page bookkeeping that follows a fetch:
    `hasNextPage` from the page info (false when absent) and the next page
    number `currentPage + 1` (the requested page when absent). */
module Paging {
  import opened Common
  import opened Schema

  /** The ids of a list, in order. */
  function Ids(s: seq<Medium>): (r: seq<Int32>)
    ensures |r| == |s|
    ensures forall i :: 0 <= i < |s| ==> r[i] == s[i].id
    decreases |s|
  {
    if s == [] then [] else [s[0].id] + Ids(s[1..])
  }

  /** No id occurs twice. */
  predicate NoDuplicateIds(s: seq<Medium>) {
    forall i, j :: 0 <= i < j < |s| ==> s[i].id != s[j].id
  }

  /** The set of ids of a list. */
  function IdSet(s: seq<Medium>): set<Int32> {
    set i | 0 <= i < |s| :: s[i].id
  }

  /** Kotlin `distinctBy { it.id }` continued from a set of ids already seen:
      an entry is kept when its id has not been seen, and its id is then seen. */
  function DistinctByIdFrom(s: seq<Medium>, seen: set<Int32>): seq<Medium>
    decreases |s|
  {
    if s == [] then []
    else if s[0].id in seen then DistinctByIdFrom(s[1..], seen)
    else [s[0]] + DistinctByIdFrom(s[1..], seen + {s[0].id})
  }

  /** Kotlin `distinctBy { it.id }`. */
  function DistinctById(s: seq<Medium>): seq<Medium> {
    DistinctByIdFrom(s, {})
  }

  /** The ids of a list split into those of its head and those of its tail. */
  lemma IdSetCons(s: seq<Medium>)
    requires s != []
    ensures IdSet(s) == {s[0].id} + IdSet(s[1..])
  {
    forall k | k in IdSet(s) ensures k in {s[0].id} + IdSet(s[1..]) {
      var i :| 0 <= i < |s| && s[i].id == k;
      if i > 0 { assert s[1..][i - 1] == s[i]; }
    }
    forall k | k in IdSet(s[1..]) ensures k in IdSet(s) {
      var i :| 0 <= i < |s[1..]| && s[1..][i].id == k;
      assert s[i + 1] == s[1..][i];
    }
  }

  /** The ids of a concatenation are the ids of both parts. */
  lemma IdSetAppend(a: seq<Medium>, b: seq<Medium>)
    ensures IdSet(a + b) == IdSet(a) + IdSet(b)
  {
    var c := a + b;
    forall k | k in IdSet(c) ensures k in IdSet(a) + IdSet(b) {
      var i :| 0 <= i < |c| && c[i].id == k;
      if i >= |a| { assert b[i - |a|] == c[i]; }
    }
    forall k | k in IdSet(a) + IdSet(b) ensures k in IdSet(c) {
      if k in IdSet(a) {
        var i :| 0 <= i < |a| && a[i].id == k;
        assert c[i] == a[i];
      } else {
        var i :| 0 <= i < |b| && b[i].id == k;
        assert c[|a| + i] == b[i];
      }
    }
  }

  /** A non-empty list has at least its head's id. */
  lemma IdSetHead(s: seq<Medium>)
    ensures s != [] ==> s[0].id in IdSet(s)
  {
  }

  /** Every entry the continued `distinctBy` keeps comes from `s` and has an unseen id. */
  lemma {:induction false} DistinctByIdFromMembers(s: seq<Medium>, seen: set<Int32>)
    ensures forall x :: x in DistinctByIdFrom(s, seen) ==> x in s && x.id !in seen
    decreases |s|
  {
    if s != [] {
      if s[0].id in seen {
        DistinctByIdFromMembers(s[1..], seen);
      } else {
        DistinctByIdFromMembers(s[1..], seen + {s[0].id});
      }
    }
  }

  /** The continued `distinctBy` keeps exactly the ids of `s` not seen before. */
  lemma {:induction false} DistinctByIdFromIdSet(s: seq<Medium>, seen: set<Int32>)
    ensures IdSet(DistinctByIdFrom(s, seen)) == IdSet(s) - seen
    decreases |s|
  {
    if s != [] {
      IdSetCons(s);
      if s[0].id in seen {
        DistinctByIdFromIdSet(s[1..], seen);
      } else {
        var tail := DistinctByIdFrom(s[1..], seen + {s[0].id});
        DistinctByIdFromIdSet(s[1..], seen + {s[0].id});
        IdSetAppend([s[0]], tail);
        assert [s[0]][0] == s[0] && [s[0]][1..] == [];
        assert IdSet([s[0]]) == {s[0].id};
      }
    }
  }

  /** No two entries the continued `distinctBy` keeps share an id. */
  lemma {:induction false} DistinctByIdFromNoDuplicates(s: seq<Medium>, seen: set<Int32>)
    ensures NoDuplicateIds(DistinctByIdFrom(s, seen))
    decreases |s|
  {
    if s != [] {
      if s[0].id in seen {
        DistinctByIdFromNoDuplicates(s[1..], seen);
      } else {
        var seen' := seen + {s[0].id};
        DistinctByIdFromNoDuplicates(s[1..], seen');
        DistinctByIdFromMembers(s[1..], seen');
        var tail := DistinctByIdFrom(s[1..], seen');
        var r := [s[0]] + tail;
        forall i, j | 0 <= i < j < |r| ensures r[i].id != r[j].id {
          if i == 0 { assert r[j] in tail; }
          else { assert r[i] == tail[i - 1] && r[j] == tail[j - 1]; }
        }
      }
    }
  }

  /** What the continued `distinctBy` keeps: entries of `s`, none with a seen
      id, no two with the same id, and every id of `s` not seen before. */
  lemma DistinctByIdFromProperties(s: seq<Medium>, seen: set<Int32>)
    ensures NoDuplicateIds(DistinctByIdFrom(s, seen))
    ensures forall x :: x in DistinctByIdFrom(s, seen) ==> x in s && x.id !in seen
    ensures IdSet(DistinctByIdFrom(s, seen)) == IdSet(s) - seen
  {
    DistinctByIdFromNoDuplicates(s, seen);
    DistinctByIdFromMembers(s, seen);
    DistinctByIdFromIdSet(s, seen);
  }

  /** `distinctBy` splits over a concatenation: the second part continues with
      the ids of the first part seen. */
  lemma {:induction false} DistinctByIdFromAppend(a: seq<Medium>, b: seq<Medium>, seen: set<Int32>)
    ensures DistinctByIdFrom(a + b, seen) == DistinctByIdFrom(a, seen) + DistinctByIdFrom(b, seen + IdSet(a))
    decreases |a|
  {
    if a == [] {
      assert a + b == b;
      assert IdSet(a) == {};
      assert seen + IdSet(a) == seen;
    } else {
      assert (a + b)[0] == a[0] && (a + b)[1..] == a[1..] + b;
      IdSetCons(a);
      if a[0].id in seen {
        DistinctByIdFromAppend(a[1..], b, seen);
        assert seen + IdSet(a[1..]) == seen + IdSet(a);
      } else {
        DistinctByIdFromAppend(a[1..], b, seen + {a[0].id});
        assert seen + {a[0].id} + IdSet(a[1..]) == seen + IdSet(a);
      }
    }
  }

  /** A list whose ids are distinct and unseen passes through unchanged. */
  lemma {:induction false} DistinctByIdFromFresh(s: seq<Medium>, seen: set<Int32>)
    requires NoDuplicateIds(s)
    requires forall i :: 0 <= i < |s| ==> s[i].id !in seen
    ensures DistinctByIdFrom(s, seen) == s
    decreases |s|
  {
    if s != [] {
      var rest := s[1..];
      forall i | 0 <= i < |rest| ensures rest[i].id !in seen + {s[0].id} {
        assert rest[i] == s[i + 1];
      }
      DistinctByIdFromFresh(rest, seen + {s[0].id});
    }
  }

  /** The merge of a fetched page into the list so far:
      `(items + newItems).distinctBy { it.id }`. */
  function MergePage(items: seq<Medium>, newItems: seq<Medium>): seq<Medium> {
    DistinctById(items + newItems)
  }

  /** Merging keeps every existing entry, in order, as a prefix; after it come
      only entries of the page whose id is new; and the merged list has no
      duplicate ids and exactly the ids of both lists. */
  lemma MergePageProperties(items: seq<Medium>, newItems: seq<Medium>)
    requires NoDuplicateIds(items)
    ensures MergePage(items, newItems) == items + DistinctByIdFrom(newItems, IdSet(items))
    ensures NoDuplicateIds(MergePage(items, newItems))
    ensures forall x :: x in MergePage(items, newItems)[|items|..] ==> x in newItems && x.id !in IdSet(items)
    ensures IdSet(MergePage(items, newItems)) == IdSet(items) + IdSet(newItems)
  {
    DistinctByIdFromAppend(items, newItems, {});
    DistinctByIdFromFresh(items, {});
    assert {} + IdSet(items) == IdSet(items);
    DistinctByIdFromProperties(items + newItems, {});
    DistinctByIdFromProperties(newItems, IdSet(items));
    var m := MergePage(items, newItems);
    assert m[|items|..] == DistinctByIdFrom(newItems, IdSet(items));
    IdSetAppend(items, newItems);
  }

  /** Merging a page whose ids are all already present changes nothing, so
      fetching the same page twice leaves the list as after the first fetch. */
  lemma MergePageIdempotent(items: seq<Medium>, newItems: seq<Medium>)
    requires NoDuplicateIds(items)
    ensures MergePage(MergePage(items, newItems), newItems) == MergePage(items, newItems)
  {
    var m := MergePage(items, newItems);
    MergePageProperties(items, newItems);
    MergePageProperties(m, newItems);
    DistinctByIdFromProperties(newItems, IdSet(m));
    IdSetHead(DistinctByIdFrom(newItems, IdSet(m)));
    assert DistinctByIdFrom(newItems, IdSet(m)) == [];
    assert m + [] == m;
  }

  /** The non-null media of a fetched page: `response.data?.Page?.media?.filterNotNull().orEmpty()`. */
  function NewMediaItems(data: Option<MediaQueryData>): (r: seq<Medium>)
    ensures data.None? || data.value.page.None? || data.value.page.value.media.None? ==> r == []
    ensures data.Some? && data.value.page.Some? && data.value.page.value.media.Some? ==>
      r == FilterNotNull(data.value.page.value.media.value)
  {
    if data.Some? && data.value.page.Some? && data.value.page.value.media.Some? then
      FilterNotNull(data.value.page.value.media.value)
    else []
  }

  /** `response.data?.Page?.pageInfo`. */
  function FetchedPageInfo(data: Option<MediaQueryData>): Option<RawPageInfo> {
    if data.Some? && data.value.page.Some? then data.value.page.value.pageInfo else None
  }

  /** `currentPageInfo?.hasNextPage ?: false`. */
  function HasNextPageAfter(info: Option<RawPageInfo>): (r: bool)
    ensures r <==> info.Some? && info.value.hasNextPage == Some(true)
  {
    if info.Some? then info.value.hasNextPage.GetOr(false) else false
  }

  /** `currentPageInfo?.currentPage?.plus(1) ?: page`. */
  function NextPageNumber(info: Option<RawPageInfo>, page: Int32): (r: Int32)
    ensures info.Some? && info.value.currentPage.Some? && info.value.currentPage.value < INT32_MAX ==>
      r == info.value.currentPage.value + 1
    ensures info.Some? && info.value.currentPage == Some(INT32_MAX as Int32) ==> r == INT32_MIN
    ensures (info.None? || info.value.currentPage.None?) ==> r == page
  {
    if info.Some? && info.value.currentPage.Some? then PlusOne(info.value.currentPage.value) else page
  }

  /** The next page number is one past the page the server reports, whatever
      page was requested, in the range where `Int` does not wrap. */
  lemma NextPageFollowsReport(info: RawPageInfo, a: Int32, b: Int32)
    requires info.currentPage.Some? && info.currentPage.value < INT32_MAX
    ensures NextPageNumber(Some(info), a) == NextPageNumber(Some(info), b) == info.currentPage.value + 1
  {
  }
}
