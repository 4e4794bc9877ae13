/** Keyset pagination: a query returns the rows whose key follows the cursor, in key order, and the
    cursor of the next page is the key of the last row returned. A table is seen as the set of its
    keys; every key is a pair compared lexicographically. */
module Keyset {
  import opened Options

  type Key = (int, int)

  predicate Lt(a: Key, b: Key) {
    a.0 < b.0 || (a.0 == b.0 && a.1 < b.1)
  }

  /** The strict part of ORDER BY: no key twice, smaller keys first. */
  ghost predicate Sorted(s: seq<Key>) {
    forall i, j :: 0 <= i < j < |s| ==> Lt(s[i], s[j])
  }

  lemma LeastExists(keys: set<Key>)
    requires keys != {}
    ensures exists k :: k in keys && forall x :: x in keys ==> x == k || Lt(k, x)
    decreases |keys|
  {
    var some :| some in keys;
    if keys != {some} {
      var rest := keys - {some};
      assert keys == rest + {some};
      LeastExists(rest);
      var least :| least in rest && forall x :: x in rest ==> x == least || Lt(least, x);
      var k := if Lt(some, least) then some else least;
      forall x | x in keys ensures x == k || Lt(k, x) {
        assert x == some || x in rest;
      }
    }
  }

  function Least(keys: set<Key>): (k: Key)
    requires keys != {}
    ensures k in keys && forall x :: x in keys ==> x == k || Lt(k, x)
  {
    LeastExists(keys);
    var k :| k in keys && forall x :: x in keys ==> x == k || Lt(k, x);
    k
  }

  function Sort(keys: set<Key>): seq<Key>
    decreases |keys|
  {
    if keys == {} then
      []
    else
      [Least(keys)] + Sort(keys - {Least(keys)})
  }

  lemma {:induction false} SortSorts(keys: set<Key>)
    ensures Sorted(Sort(keys))
    ensures |Sort(keys)| == |keys|
    ensures forall k :: k in Sort(keys) <==> k in keys
    decreases |keys|
  {
    if keys != {} {
      var first, rest := Least(keys), Sort(keys - {Least(keys)});
      SortSorts(keys - {first});
      forall j | 0 <= j < |rest| ensures Lt(first, rest[j]) {
        assert rest[j] in rest;
      }
    }
  }

  predicate Follows(k: Key, cursor: Option<Key>) {
    cursor.Some? ==> Lt(cursor.value, k)
  }

  function After(keys: set<Key>, cursor: Option<Key>): set<Key> {
    set k | k in keys && Follows(k, cursor)
  }

  /** Dropping a prefix of the sorted table is the same as restarting after its last key. */
  lemma {:induction false} RestartAfterPrefix(keys: set<Key>, n: nat)
    requires 0 < n <= |Sort(keys)|
    ensures Sort(After(keys, Some(Sort(keys)[n - 1]))) == Sort(keys)[n..]
    decreases n
  {
    var first := Least(keys);
    var rest := keys - {first};
    if n == 1 {
      assert After(keys, Some(first)) == rest;
    } else {
      var cursor := Sort(rest)[n - 2];
      RestartAfterPrefix(rest, n - 1);
      assert cursor in rest by { SortSorts(rest); assert cursor in Sort(rest); }
      assert After(keys, Some(cursor)) == After(rest, Some(cursor));
    }
  }

  /** A key's position in the sorted table is the number of smaller keys. */
  lemma {:induction false} PositionIsRank(keys: set<Key>, k: Key)
    requires k in keys
    ensures var rank := |set x | x in keys && Lt(x, k)|;
            rank < |Sort(keys)| && Sort(keys)[rank] == k
    decreases |keys|
  {
    var first := Least(keys);
    var smaller := set x | x in keys && Lt(x, k);
    if k == first {
      assert smaller == {};
    } else {
      var rest := keys - {first};
      PositionIsRank(rest, k);
      assert smaller == {first} + (set x | x in rest && Lt(x, k));
    }
  }

  /** How many keys come no later than k. */
  function UpTo(keys: set<Key>, k: Key): nat {
    |set x | x in keys && !Lt(k, x)|
  }

  function Take(s: seq<Key>, n: nat): seq<Key> {
    if n < |s| then s[..n] else s
  }

  /** The n smallest keys. */
  function FirstKeys(keys: set<Key>, n: nat): set<Key>
    decreases n
  {
    if n == 0 || keys == {} then {} else {Least(keys)} + FirstKeys(keys - {Least(keys)}, n - 1)
  }

  lemma {:induction false} FirstKeysAreTaken(keys: set<Key>, n: nat)
    ensures forall x :: x in FirstKeys(keys, n) <==> x in Take(Sort(keys), n)
    decreases n
  {
    if n > 0 && keys != {} {
      var rest := keys - {Least(keys)};
      FirstKeysAreTaken(rest, n - 1);
      assert Take(Sort(keys), n) == [Least(keys)] + Take(Sort(rest), n - 1);
    }
  }

  lemma UpToWithout(keys: set<Key>, k: Key)
    requires keys != {}
    ensures UpTo(keys - {Least(keys)}, k) == Max(UpTo(keys, k) - 1, 0)
  {
    var first := Least(keys);
    var upTo, rest := set x | x in keys && !Lt(k, x), set x | x in keys - {first} && !Lt(k, x);
    if Lt(k, first) {
      assert upTo == {} && rest == {};
    } else {
      assert upTo == {first} + rest;
    }
  }

  /** The n smallest keys: as many as there are, and each before every other key. */
  lemma {:induction false} FirstKeysAreSmallest(keys: set<Key>, n: nat)
    ensures FirstKeys(keys, n) <= keys && |FirstKeys(keys, n)| == Min(n, |keys|)
    ensures forall x, y :: x in FirstKeys(keys, n) && y in keys && y !in FirstKeys(keys, n) ==> Lt(x, y)
    decreases n
  {
    if n > 0 && keys != {} {
      FirstKeysAreSmallest(keys - {Least(keys)}, n - 1);
    }
  }

  lemma {:induction false} UpToAfterTaking(keys: set<Key>, n: nat, k: Key)
    ensures UpTo(keys - FirstKeys(keys, n), k) == Max(UpTo(keys, k) - n, 0)
    decreases n
  {
    if n == 0 || keys == {} {
      assert keys - FirstKeys(keys, n) == keys;
      assert keys == {} ==> (set x | x in keys && !Lt(k, x)) == {};
    } else {
      var rest := keys - {Least(keys)};
      UpToAfterTaking(rest, n - 1, k);
      UpToWithout(keys, k);
      assert keys - FirstKeys(keys, n) == rest - FirstKeys(rest, n - 1);
    }
  }

  /** Taking the n smallest keys away takes n of the keys up to k away, as far as there are that many. */
  lemma TakingSmallest(keys: set<Key>, n: nat, k: Key)
    ensures FirstKeys(keys, n) <= keys && |FirstKeys(keys, n)| == Min(n, |keys|)
    ensures UpTo(keys - FirstKeys(keys, n), k) == Max(UpTo(keys, k) - n, 0)
    ensures forall x, y :: x in FirstKeys(keys, n) && y in keys && y !in FirstKeys(keys, n) ==> Lt(x, y)
  {
    FirstKeysAreSmallest(keys, n);
    UpToAfterTaking(keys, n, k);
  }

  /* ---------- One page ---------- */

  datatype Page = Page(items: seq<Key>, next: Option<Key>)

  /** The query asks for one row more than the limit; the extra row only tells that a page follows. */
  function FetchPage(keys: set<Key>, limit: nat, cursor: Option<Key>): Page
    requires limit >= 1
  {
    var all := Sort(After(keys, cursor));
    var rows := Take(all, limit + 1);
    if |rows| > limit then Page(rows[..limit], Some(rows[limit - 1])) else Page(rows, None)
  }

  /** The rows before position n are the given ones, and each of the others comes after the n-th. */
  lemma PrefixOfSorted(all: seq<Key>, n: nat)
    requires Sorted(all) && n <= |all|
    ensures Sorted(all[..n])
    ensures forall k :: k in all && k !in all[..n] && n > 0 ==> Lt(all[n - 1], k)
  {
    forall k | k in all && k !in all[..n] && n > 0 ensures Lt(all[n - 1], k) {
      assert all == all[..n] + all[n..];
      assert k in all[n..];
      var i :| 0 <= i < |all[n..]| && all[n..][i] == k;
      assert all[n + i] == k;
    }
  }

  lemma PageIsPrefix(keys: set<Key>, limit: nat, cursor: Option<Key>)
    requires limit >= 1
    ensures var page, all := FetchPage(keys, limit, cursor), Sort(After(keys, cursor));
            && page.items == all[..Min(limit, |all|)]
            && (page.next.Some? <==> |all| > limit)
            && (page.next.Some? ==> page.next.value == all[limit - 1])
  {
    var all := Sort(After(keys, cursor));
    assert |all| > limit ==> all[..limit + 1][..limit] == all[..limit];
    assert |all| <= limit ==> all[..|all|] == all;
  }

  /** A page is the gapless start of what follows the cursor, and the last page is all of it. */
  lemma PageIsGapless(keys: set<Key>, limit: nat, cursor: Option<Key>)
    requires limit >= 1
    ensures var page := FetchPage(keys, limit, cursor);
            && Sorted(page.items) && |page.items| <= limit
            && (forall k :: k in page.items ==> k in keys && Follows(k, cursor))
            && (forall k :: k in keys && Follows(k, cursor) && k !in page.items ==>
                  page.next.Some? && Lt(page.next.value, k))
            && (page.next.Some? ==> |page.items| == limit && page.next.value == page.items[limit - 1])
            && (page.next.Some? <==> |After(keys, cursor)| > limit)
  {
    var from, page := After(keys, cursor), FetchPage(keys, limit, cursor);
    var all := Sort(from);
    SortSorts(from);
    PageIsPrefix(keys, limit, cursor);
    PrefixOfSorted(all, |page.items|);
    forall k | k in page.items ensures k in from {
      var i :| 0 <= i < |page.items| && page.items[i] == k;
      assert all[i] == k;
    }
    forall k | k in keys && Follows(k, cursor) && k !in page.items ensures page.next.Some? && Lt(page.next.value, k) {
      assert k in from && k in all;
    }
  }

  /** A sorted sequence is the sort of its elements. */
  lemma {:induction false} SortedIsSort(s: seq<Key>)
    requires Sorted(s)
    ensures Sort(set k | k in s) == s
    decreases |s|
  {
    var keys := set k | k in s;
    if s != [] {
      assert s[0] in keys;
      var least := Least(keys);
      var i :| 0 <= i < |s| && s[i] == least;
      assert least == s[0];
      forall k ensures k in keys - {s[0]} <==> k in s[1..] {
        assert k in s[1..] ==> k in s && k != s[0];
      }
      assert keys - {s[0]} == set k | k in s[1..];
      SortedIsSort(s[1..]);
    }
  }

  /* ---------- Following the cursors ---------- */

  datatype Scan = Scan(items: seq<Key>, finished: bool)

  /** Page after page until there is no next cursor. The i-th fetch sees the i-th table, so the
      table may change in any way between two fetches. */
  function ScanFrom(tables: seq<set<Key>>, limit: nat, cursor: Option<Key>): Scan
    requires limit >= 1
  {
    if tables == [] then
      Scan([], false)
    else
      var page := FetchPage(tables[0], limit, cursor);
      if page.next.None? then
        Scan(page.items, true)
      else
        var rest := ScanFrom(tables[1..], limit, page.next);
        Scan(page.items + rest.items, rest.finished)
  }

  /** Whatever happens to the table between the fetches, no key is yielded twice, every yielded key
      was in the table when its page was read, and once the scan has finished, every key that was in
      the table throughout has been yielded. */
  lemma {:induction false} ScanSurvivesChange(tables: seq<set<Key>>, limit: nat, cursor: Option<Key>)
    requires limit >= 1
    ensures var scan := ScanFrom(tables, limit, cursor);
            && Sorted(scan.items)
            && (forall k :: k in scan.items ==> Follows(k, cursor) && exists i :: 0 <= i < |tables| && k in tables[i])
            && (scan.finished ==>
                  forall k :: Follows(k, cursor) && (forall i :: 0 <= i < |tables| ==> k in tables[i])
                    ==> k in scan.items)
    decreases |tables|
  {
    if tables != [] {
      var page := FetchPage(tables[0], limit, cursor);
      PageIsGapless(tables[0], limit, cursor);
      if page.next.Some? {
        assert page.items[limit - 1] in page.items;
        ScanSurvivesChange(tables[1..], limit, page.next);
        var rest := ScanFrom(tables[1..], limit, page.next);
        assert forall k :: k in page.items ==> k == page.next.value || Lt(k, page.next.value);
        JoinedIsSorted(page.items, page.next.value, rest.items);
        JoinedWasPresent(tables, page.items, rest.items);
        if rest.finished {
          JoinedMissesNothing(tables, cursor, page.items, page.next.value, rest.items);
        }
      }
    }
  }

  lemma JoinedIsSorted(items: seq<Key>, last: Key, rest: seq<Key>)
    requires Sorted(items) && Sorted(rest)
    requires forall k :: k in items ==> k == last || Lt(k, last)
    requires forall k :: k in rest ==> Lt(last, k)
    ensures Sorted(items + rest)
  {
    forall i, j | 0 <= i < |items| && 0 <= j < |rest| ensures Lt(items[i], rest[j]) {
      assert items[i] in items && rest[j] in rest;
    }
  }

  lemma JoinedWasPresent(tables: seq<set<Key>>, items: seq<Key>, rest: seq<Key>)
    requires tables != [] && forall k :: k in items ==> k in tables[0]
    requires forall k :: k in rest ==> exists i :: 0 <= i < |tables[1..]| && k in tables[1..][i]
    ensures forall k :: k in items + rest ==> exists i :: 0 <= i < |tables| && k in tables[i]
  {
    forall k | k in items + rest ensures exists i :: 0 <= i < |tables| && k in tables[i] {
      if k in items {
        assert k in tables[0];
      } else {
        var i :| 0 <= i < |tables[1..]| && k in tables[1..][i];
        assert k in tables[i + 1];
      }
    }
  }

  lemma JoinedMissesNothing(tables: seq<set<Key>>, cursor: Option<Key>, items: seq<Key>, last: Key, rest: seq<Key>)
    requires tables != [] && forall k :: k in tables[0] && Follows(k, cursor) && k !in items ==> Lt(last, k)
    requires forall k :: Lt(last, k) && (forall i :: 0 <= i < |tables[1..]| ==> k in tables[1..][i]) ==> k in rest
    ensures forall k :: Follows(k, cursor) && (forall i :: 0 <= i < |tables| ==> k in tables[i]) ==> k in items + rest
  {
    forall k | Follows(k, cursor) && (forall i :: 0 <= i < |tables| ==> k in tables[i]) ensures k in items + rest {
      assert k in tables[0];
      forall i | 0 <= i < |tables[1..]| ensures k in tables[1..][i] {
        assert tables[1..][i] == tables[i + 1];
      }
    }
  }

  /** An unchanging table, fetched n times. */
  function Unchanging(keys: set<Key>, n: nat): (tables: seq<set<Key>>) {
    seq(n, _ => keys)
  }

  /** On an unchanging table the scan ends with the page that holds the last row, and then it has
      yielded exactly the sorted table; before that it has yielded full pages of it. */
  lemma ScanOfUnchangingTable(keys: set<Key>, n: nat, limit: nat, cursor: Option<Key>)
    requires limit >= 1
    ensures var scan, all := ScanFrom(Unchanging(keys, n), limit, cursor), Sort(After(keys, cursor));
            && (scan.finished <==> n >= 1 && |all| <= n * limit)
            && (if scan.finished then scan.items == all else n * limit <= |all| && scan.items == all[..n * limit])
  {
    ScanYieldsCapacity(keys, n, limit, cursor, n * limit);
  }

  lemma {:induction false} ScanYieldsCapacity(keys: set<Key>, n: nat, limit: nat, cursor: Option<Key>, capacity: nat)
    requires limit >= 1 && capacity == n * limit
    ensures var scan, all := ScanFrom(Unchanging(keys, n), limit, cursor), Sort(After(keys, cursor));
            && (scan.finished <==> n >= 1 && |all| <= capacity)
            && (if scan.finished then scan.items == all else capacity <= |all| && scan.items == all[..capacity])
    decreases n
  {
    if n > 0 {
      var page, all := FetchPage(keys, limit, cursor), Sort(After(keys, cursor));
      assert Unchanging(keys, n)[1..] == Unchanging(keys, n - 1);
      OnePageLess(n, limit, capacity);
      if page.next.Some? {
        NextPageContinues(keys, limit, cursor);
        ScanYieldsCapacity(keys, n - 1, limit, page.next, capacity - limit);
        JoinPages(all, limit, capacity);
      }
    }
  }

  lemma OnePageLess(n: nat, limit: nat, capacity: nat)
    requires n > 0 && capacity == n * limit
    ensures capacity - limit == (n - 1) * limit && capacity >= limit
  {
    assert (n - 1) * limit >= 0;
  }

  lemma JoinPages(all: seq<Key>, limit: nat, capacity: nat)
    requires limit <= |all| && limit <= capacity
    ensures all[..limit] + all[limit..] == all
    ensures capacity <= |all| ==> all[..limit] + all[limit..][..capacity - limit] == all[..capacity]
  {
  }

  /** What follows a full page's cursor is the rest of what followed the previous cursor. */
  lemma NextPageContinues(keys: set<Key>, limit: nat, cursor: Option<Key>)
    requires limit >= 1 && FetchPage(keys, limit, cursor).next.Some?
    ensures var page, all := FetchPage(keys, limit, cursor), Sort(After(keys, cursor));
            && |all| > limit && page.items == all[..limit]
            && Sort(After(keys, page.next)) == all[limit..]
  {
    var from, page := After(keys, cursor), FetchPage(keys, limit, cursor);
    RestartAfterPrefix(from, limit);
    PageIsGapless(keys, limit, cursor);
    assert page.next.value in page.items;
    assert After(keys, page.next) == After(from, page.next);
  }
}
