/** Reading the audit log page by page while it changes underneath
    (list_events of app/services/audit.py). */
module Paging {
  import opened Wrappers
  import opened Model
  import opened Cursor
  import Base64

  // ---- the order: timestamp, then id ----------------------------------------------------

  predicate Older(a: Key, b: Key) {
    a.at < b.at || (a.at == b.at && a.id < b.id)
  }

  predicate IsNewest(k: Key, rows: set<Key>) {
    k in rows && forall j :: j in rows && j != k ==> Older(j, k)
  }

  lemma NewestExists(rows: set<Key>) returns (k: Key)
    requires rows != {}
    ensures IsNewest(k, rows)
  {
    var one :| one in rows;
    var rest := rows - {one};
    if rest == {} {
      assert rows == {one};
      k := one;
    } else {
      var best := NewestExists(rest);
      k := if Older(one, best) then best else one;
      forall j | j in rows && j != k ensures Older(j, k) {
        assert j == one || j in rest;
      }
    }
  }

  function Newest(rows: set<Key>): (k: Key)
    requires rows != {}
    ensures IsNewest(k, rows)
  {
    assert exists k :: IsNewest(k, rows) by { var k := NewestExists(rows); }
    var k :| k in rows && IsNewest(k, rows);
    k
  }

  /** ORDER BY occurred_at DESC, id DESC LIMIT n. */
  function Top(rows: set<Key>, n: nat): seq<Key> {
    if n == 0 || rows == {} then [] else [Newest(rows)] + Top(rows - {Newest(rows)}, n - 1)
  }

  ghost predicate Descending(s: seq<Key>) {
    forall i, j :: 0 <= i < j < |s| ==> Older(s[j], s[i])
  }

  function Members(s: seq<Key>): set<Key> {
    set k | k in s
  }

  // The newest rows: a descending list, and everything left out is older than all of it.
  ghost predicate NewestOf(t: seq<Key>, rows: set<Key>) {
    && Descending(t)
    && (forall k :: k in t ==> k in rows)
    && (forall k, i :: k in rows && k !in t && 0 <= i < |t| ==> Older(k, t[i]))
  }

  lemma {:induction false} TopIsNewest(rows: set<Key>, n: nat)
    ensures NewestOf(Top(rows, n), rows)
    ensures |Top(rows, n)| == if |rows| < n then |rows| else n
    decreases n
  {
    if n > 0 && rows != {} {
      var k, rest := Newest(rows), rows - {Newest(rows)};
      TopIsNewest(rest, n - 1);
      NewestFirst(k, Top(rest, n - 1), rows);
    }
  }

  lemma NewestFirst(k: Key, t: seq<Key>, rows: set<Key>)
    requires IsNewest(k, rows) && NewestOf(t, rows - {k})
    ensures NewestOf([k] + t, rows)
  {
    forall i | 0 <= i < |t| ensures Older(t[i], k) { assert t[i] in rows - {k}; }
  }

  // ---- one page -----------------------------------------------------------------------------

  datatype Page = Page(rows: seq<Key>, next: Option<string>)

  function Below(rows: set<Key>, k: Key): set<Key> {
    set j | j in rows && Older(j, k)
  }

  predicate Given(cursor: Option<string>) {
    cursor.Some? && cursor.value != ""
  }

  /** `rows` are the keys of the events that match the filter now. */
  function ListEvents(rows: set<Key>, limit: nat, cursor: Option<string>): Result<Page, Error>
    requires limit > 0
  {
    if Given(cursor) && DecodeCursor(cursor.value).Err? then Err(Invalid)
    else
      var left := if Given(cursor) then Below(rows, DecodeCursor(cursor.value).value) else rows;
      var top := Top(left, limit + 1);
      if |top| > limit then Ok(Page(top[..limit], Some(EncodeCursor(top[limit - 1])))) else Ok(Page(top, None))
  }

  // The same page with the cursor taken apart: what is unread is what is older than `after`.
  datatype Slice = Slice(rows: seq<Key>, last: Option<Key>)

  function Unread(rows: set<Key>, after: Option<Key>): set<Key> {
    if after.None? then rows else Below(rows, after.value)
  }

  function NextSlice(rows: set<Key>, limit: nat, after: Option<Key>): Slice
    requires limit > 0
  {
    var top := Top(Unread(rows, after), limit + 1);
    if |top| > limit then Slice(top[..limit], Some(top[limit - 1])) else Slice(top, None)
  }

  function CursorFor(after: Option<Key>): Option<string> {
    if after.None? then None else Some(EncodeCursor(after.value))
  }

  lemma EmptyCursorIsRefused()
    ensures DecodeCursor("") == Err(Invalid)
  {
    assert Base64.Repad("") == "";
    assert Base64.Run(Base64.START, "") == Base64.START;
  }

  lemma CursorIsGiven(k: Key)
    requires ValidKey(k)
    ensures EncodeCursor(k) != "" && DecodeCursor(EncodeCursor(k)) == Ok(k)
  {
    CursorRoundTrip(k);
    if EncodeCursor(k) == "" { EmptyCursorIsRefused(); }
  }

  /** A page served for the cursor of an event is the slice after that event. */
  lemma PageIsSlice(rows: set<Key>, limit: nat, after: Option<Key>)
    requires limit > 0 && (after.Some? ==> ValidKey(after.value))
    ensures var p := NextSlice(rows, limit, after);
      ListEvents(rows, limit, CursorFor(after)) == Ok(Page(p.rows, CursorFor(p.last)))
  {
    if after.Some? { CursorIsGiven(after.value); }
  }

  lemma SliceIsNewest(rows: set<Key>, limit: nat, after: Option<Key>)
    requires limit > 0
    ensures var p, left := NextSlice(rows, limit, after), Unread(rows, after);
      && NewestOf(p.rows, left)
      && (p.last.None? <==> |left| <= limit)
      && (p.last.None? ==> forall k :: k in left ==> k in p.rows)
      && (p.last.Some? ==> |p.rows| == limit && p.last.value == p.rows[limit - 1])
  {
    var left := Unread(rows, after);
    var top := Top(left, limit + 1);
    TopIsNewest(left, limit + 1);
    if |top| > limit {
      FewerAreNewest(top, limit, left);
    } else {
      AllShown(top, left);
    }
  }

  lemma FewerAreNewest(t: seq<Key>, n: nat, rows: set<Key>)
    requires NewestOf(t, rows) && n <= |t|
    ensures NewestOf(t[..n], rows)
  {
    forall k, i | k in rows && k !in t[..n] && 0 <= i < n ensures Older(k, t[i]) {
      if k in t {
        var j :| 0 <= j < |t| && t[j] == k;
        assert forall m :: 0 <= m < n ==> t[m] in t[..n];
      }
    }
  }

  lemma {:induction false} MembersSize(s: seq<Key>)
    requires Descending(s)
    ensures |Members(s)| == |s|
    decreases |s|
  {
    if s != [] {
      MembersSize(s[..|s| - 1]);
      assert Members(s) == Members(s[..|s| - 1]) + {s[|s| - 1]};
    }
  }

  lemma AllShown(t: seq<Key>, rows: set<Key>)
    requires NewestOf(t, rows) && |t| == |rows|
    ensures forall k :: k in rows ==> k in t
  {
    MembersSize(t);
    var rest := rows - Members(t);
    assert rows == Members(t) + rest;
    assert |rows| == |Members(t)| + |rest|;
  }

  // ---- a whole session --------------------------------------------------------------------------

  datatype Session = Session(rows: seq<Key>, complete: bool)

  /** Follow the cursors; `tables[i]` is what matches when page i is read. */
  function Read(tables: seq<set<Key>>, limit: nat, cursor: Option<string>): Session
    requires limit > 0
  {
    if tables == [] then Session([], false)
    else
      var r := ListEvents(tables[0], limit, cursor);
      if r.Err? then Session([], false)
      else if r.value.next.None? then Session(r.value.rows, true)
      else
        var rest := Read(tables[1..], limit, r.value.next);
        Session(r.value.rows + rest.rows, rest.complete)
  }

  function ReadSlices(tables: seq<set<Key>>, limit: nat, after: Option<Key>): Session
    requires limit > 0
  {
    if tables == [] then Session([], false)
    else
      var p := NextSlice(tables[0], limit, after);
      if p.last.None? then Session(p.rows, true)
      else
        var rest := ReadSlices(tables[1..], limit, p.last);
        Session(p.rows + rest.rows, rest.complete)
  }

  ghost predicate Valid(tables: seq<set<Key>>) {
    forall i, k :: 0 <= i < |tables| && k in tables[i] ==> ValidKey(k)
  }

  lemma {:induction false} ReadIsReadSlices(tables: seq<set<Key>>, limit: nat, after: Option<Key>)
    requires limit > 0 && Valid(tables) && (after.Some? ==> ValidKey(after.value))
    ensures Read(tables, limit, CursorFor(after)) == ReadSlices(tables, limit, after)
    decreases |tables|
  {
    if tables != [] {
      PageIsSlice(tables[0], limit, after);
      SliceIsNewest(tables[0], limit, after);
      var p := NextSlice(tables[0], limit, after);
      if p.last.Some? {
        assert p.last.value in p.rows && p.last.value in tables[0];
        ReadIsReadSlices(tables[1..], limit, p.last);
      }
    }
  }

  lemma Appended(page: seq<Key>, rest: seq<Key>, rows: set<Key>)
    requires page != [] && NewestOf(page, rows) && Descending(rest)
    requires forall k :: k in rest ==> Older(k, page[|page| - 1])
    ensures Descending(page + rest)
    ensures forall k, i :: k in rest && 0 <= i < |page| ==> Older(k, page[i])
  {
    var last := page[|page| - 1];
    forall k, i | k in rest && 0 <= i < |page| ensures Older(k, page[i]) {
      assert Older(k, last) && (i < |page| - 1 ==> Older(last, page[i]));
    }
    var all := page + rest;
    forall i, j | 0 <= i < j < |all| ensures Older(all[j], all[i]) {
      if j >= |page| { assert all[j] in rest; }
    }
  }

  lemma {:induction false} SlicesDescend(tables: seq<set<Key>>, limit: nat, after: Option<Key>)
    requires limit > 0
    ensures Descending(ReadSlices(tables, limit, after).rows)
    ensures after.Some? ==> forall k :: k in ReadSlices(tables, limit, after).rows ==> Older(k, after.value)
    decreases |tables|
  {
    if tables != [] {
      SliceIsNewest(tables[0], limit, after);
      var p := NextSlice(tables[0], limit, after);
      if p.last.Some? {
        SlicesDescend(tables[1..], limit, p.last);
        Appended(p.rows, ReadSlices(tables[1..], limit, p.last).rows, Unread(tables[0], after));
        assert p.last.value in p.rows;
      }
    }
  }

  lemma {:induction false} SlicesShowAll(tables: seq<set<Key>>, limit: nat, after: Option<Key>, k: Key)
    requires limit > 0 && ReadSlices(tables, limit, after).complete
    requires forall i :: 0 <= i < |tables| ==> k in tables[i]
    requires after.Some? ==> Older(k, after.value)
    ensures k in ReadSlices(tables, limit, after).rows
    decreases |tables|
  {
    SliceIsNewest(tables[0], limit, after);
    var p := NextSlice(tables[0], limit, after);
    assert k in Unread(tables[0], after);
    if p.last.Some? && k !in p.rows {
      SlicesShowAll(tables[1..], limit, p.last, k);
    }
  }

  lemma {:induction false} SlicesInvent(tables: seq<set<Key>>, limit: nat, after: Option<Key>, k: Key)
    requires limit > 0 && k in ReadSlices(tables, limit, after).rows
    ensures exists i :: 0 <= i < |tables| && k in tables[i]
    decreases |tables|
  {
    SliceIsNewest(tables[0], limit, after);
    var p := NextSlice(tables[0], limit, after);
    if k in p.rows {
      assert k in tables[0];
    } else {
      SlicesInvent(tables[1..], limit, p.last, k);
      var i :| 0 <= i < |tables| - 1 && k in tables[1..][i];
      assert k in tables[i + 1];
    }
  }

  /** Over a whole session, whatever is inserted, settled or pruned between the pages: the rows
      come strictly newest first, so none twice; each matched when its page was read; and once
      the session is complete, every event that matched throughout has been shown. */
  lemma SessionIsExact(tables: seq<set<Key>>, limit: nat)
    requires limit > 0 && Valid(tables)
    ensures var s := Read(tables, limit, None);
      && Descending(s.rows)
      && (forall i, j :: 0 <= i < j < |s.rows| ==> s.rows[i] != s.rows[j])
      && (forall k :: k in s.rows ==> exists i :: 0 <= i < |tables| && k in tables[i])
      && (s.complete ==> forall k :: (forall i :: 0 <= i < |tables| ==> k in tables[i]) ==> k in s.rows)
  {
    ReadIsReadSlices(tables, limit, None);
    SlicesDescend(tables, limit, None);
    var s := Read(tables, limit, None);
    forall k | k in s.rows ensures exists i :: 0 <= i < |tables| && k in tables[i] {
      SlicesInvent(tables, limit, None, k);
    }
    forall k | s.complete && forall i :: 0 <= i < |tables| ==> k in tables[i] ensures k in s.rows {
      SlicesShowAll(tables, limit, None, k);
    }
  }

  // ---- the session ends ----------------------------------------------------------------------------

  /** New events are newer than every event there was. */
  ghost predicate OnlyNewer(before: set<Key>, after: set<Key>) {
    forall k, j :: k in after && k !in before && j in before ==> Older(j, k)
  }

  // A full page leaves that much less to read.
  lemma SliceShrinks(now: set<Key>, later: set<Key>, limit: nat, after: Option<Key>)
    requires limit > 0 && OnlyNewer(now, later)
    requires NextSlice(now, limit, after).last.Some?
    ensures |Unread(later, NextSlice(now, limit, after).last)| + limit <= |Unread(now, after)|
  {
    SliceIsNewest(now, limit, after);
    var p, left := NextSlice(now, limit, after), Unread(now, after);
    var shown, next := Members(p.rows), Unread(later, p.last);
    assert p.last.value in p.rows;
    forall k | k in next ensures k in left - shown {
      assert k in now;
    }
    SubsetSize(next, left - shown);
    MembersSize(p.rows);
    assert left == (left - shown) + shown;
  }

  lemma {:induction false} SlicesEnd(tables: seq<set<Key>>, limit: nat, after: Option<Key>)
    requires limit > 0 && tables != []
    requires forall i :: 0 <= i < |tables| - 1 ==> OnlyNewer(tables[i], tables[i + 1])
    requires |Unread(tables[0], after)| <= |tables| * limit
    ensures ReadSlices(tables, limit, after).complete
    decreases |tables|
  {
    SliceIsNewest(tables[0], limit, after);
    var p, rest := NextSlice(tables[0], limit, after), tables[1..];
    if p.last.Some? {
      SliceShrinks(tables[0], rest[0], limit, after);
      assert |rest| * limit == |tables| * limit - limit;
      forall i | 0 <= i < |rest| - 1 ensures OnlyNewer(rest[i], rest[i + 1]) {
        assert OnlyNewer(tables[i + 1], tables[i + 2]);
      }
      SlicesEnd(rest, limit, p.last);
    }
  }

  /** While new events only ever are newer, a session needs at most as many pages as the first
      table fills. */
  lemma SessionEnds(tables: seq<set<Key>>, limit: nat)
    requires limit > 0 && Valid(tables) && tables != []
    requires forall i :: 0 <= i < |tables| - 1 ==> OnlyNewer(tables[i], tables[i + 1])
    requires |tables[0]| <= |tables| * limit
    ensures Read(tables, limit, None).complete
  {
    ReadIsReadSlices(tables, limit, None);
    SlicesEnd(tables, limit, None);
  }

  // ---- ... whatever is inserted ------------------------------------------------------------------

  /** Every event that matches at some time during the session. */
  function Ever(tables: seq<set<Key>>): set<Key> {
    if tables == [] then {} else tables[0] + Ever(tables[1..])
  }

  lemma {:induction false} InEver(tables: seq<set<Key>>, i: nat, k: Key)
    requires i < |tables| && k in tables[i]
    ensures k in Ever(tables)
  {
    if i > 0 { InEver(tables[1..], i - 1, k); }
  }

  // A full page leaves an event that is older than all of it.
  lemma FullPageLeavesOne(rows: set<Key>, limit: nat, after: Option<Key>) returns (k: Key)
    requires limit > 0 && NextSlice(rows, limit, after).last.Some?
    ensures var p := NextSlice(rows, limit, after);
      |p.rows| == limit && k in rows && k !in p.rows && forall x :: x in p.rows ==> Older(k, x)
  {
    SliceIsNewest(rows, limit, after);
    var p, left := NextSlice(rows, limit, after), Unread(rows, after);
    MembersSize(p.rows);
    if left <= Members(p.rows) {
      SubsetSize(left, Members(p.rows));
      assert false;
    }
    k :| k in left && k !in p.rows;
    forall x | x in p.rows ensures Older(k, x) {
      var i :| 0 <= i < |p.rows| && p.rows[i] == x;
    }
  }

  // Pages before: `k` is older than the later rows, so than the earlier ones.
  lemma OlderThanAll(page: seq<Key>, later: seq<Key>, k: Key)
    requires Descending(page + later) && later != [] && forall x :: x in later ==> Older(k, x)
    ensures forall x :: x in page + later ==> Older(k, x)
  {
    var all := page + later;
    assert later[0] in later && all[|page|] == later[0];
    forall x | x in all ensures Older(k, x) {
      var i :| 0 <= i < |all| && all[i] == x;
      if i >= |page| { assert x in later; }
    }
  }

  // An unfinished session has filled every page, and has at least one more event to show.
  lemma {:induction false} UnfinishedIsFull(tables: seq<set<Key>>, limit: nat, after: Option<Key>) returns (k: Key)
    requires limit > 0 && tables != [] && !ReadSlices(tables, limit, after).complete
    ensures var rows := ReadSlices(tables, limit, after).rows;
      |rows| == |tables| * limit && k in tables[|tables| - 1] && forall x :: x in rows ==> Older(k, x)
    decreases |tables|
  {
    var p, rest := NextSlice(tables[0], limit, after), tables[1..];
    var later := ReadSlices(rest, limit, p.last).rows;
    var one := FullPageLeavesOne(tables[0], limit, after);
    assert ReadSlices(tables, limit, after).rows == p.rows + later;
    if rest == [] {
      k := one;
      assert p.rows + later == p.rows;
    } else {
      k := UnfinishedIsFull(rest, limit, p.last);
      FullPages(|rest|, limit);
      SlicesDescend(tables, limit, after);
      OlderThanAll(p.rows, later, k);
    }
  }

  lemma FullPages(pages: nat, limit: nat)
    requires pages >= 1
    ensures pages * limit >= limit && (pages + 1) * limit == pages * limit + limit
  {
  }

  /** A session needs at most as many pages as are filled by the events that match at some time
      during it, wherever new ones are inserted. */
  lemma SessionAlwaysEnds(tables: seq<set<Key>>, limit: nat)
    requires limit > 0 && Valid(tables) && tables != [] && |Ever(tables)| <= |tables| * limit
    ensures Read(tables, limit, None).complete
  {
    ReadIsReadSlices(tables, limit, None);
    if !ReadSlices(tables, limit, None).complete {
      var k := UnfinishedIsFull(tables, limit, None);
      var rows := ReadSlices(tables, limit, None).rows;
      SlicesDescend(tables, limit, None);
      MembersSize(rows);
      forall x | x in Members(rows) + {k} ensures x in Ever(tables) {
        if x == k {
          InEver(tables, |tables| - 1, k);
        } else {
          SlicesInvent(tables, limit, None, x);
          var i :| 0 <= i < |tables| && x in tables[i];
          InEver(tables, i, x);
        }
      }
      SubsetSize(Members(rows) + {k}, Ever(tables));
      assert false;
    }
  }
}
