/** The gateway's lookup of a subscription's topic: the subscriptions service has no such query, so
    the gateway pages through the user's own listing. */
module Gateway {
  import opened Options
  import opened Keyset
  import opened Subscriptions

  const PAGES: nat := 20
  const PAGE_LIMIT: nat := 500

  /** The key of a subscription in the newest-first listing. */
  function OwnKey(s: Store, id: int): Key
    requires id in s.rows
  {
    (-s.rows[id].createdAt, -id)
  }

  /** How many of the user's subscriptions are listed before this one. */
  function Newer(s: Store, user: int, id: int): nat
    requires id in s.rows
  {
    |set k | k in OwnKeys(s, user) && Lt(k, OwnKey(s, id))|
  }

  /** The direct lookup that the loop stands for, where answered[i] tells whether the i-th page
      request comes back with status 200. */
  function TopicOf(s: Store, user: int, id: int, answered: seq<bool>): Option<int>
    requires |answered| == PAGES
  {
    if && OwnedBy(s, id, user)
       && Newer(s, user, id) < PAGES * PAGE_LIMIT
       && (forall i :: 0 <= i <= Newer(s, user, id) / PAGE_LIMIT ==> answered[i])
    then Some(s.rows[id].topic)
    else None
  }

  /** Where the subscription stands in the sorted listing. */
  lemma ListedAt(s: Store, user: int, id: int, position: nat)
    requires position < |Sort(OwnKeys(s, user))| && Sort(OwnKeys(s, user))[position].1 == -id
    ensures OwnedBy(s, id, user) && Newer(s, user, id) == position
  {
    var keys := OwnKeys(s, user);
    SortSorts(keys);
    assert Sort(keys)[position] in Sort(keys);
    PositionIsRank(keys, OwnKey(s, id));
    assert Sort(keys)[position] == OwnKey(s, id);
  }

  lemma OwnedIsListed(s: Store, user: int, id: int)
    requires OwnedBy(s, id, user)
    ensures Newer(s, user, id) < |Sort(OwnKeys(s, user))|
    ensures Sort(OwnKeys(s, user))[Newer(s, user, id)].1 == -id
  {
    assert OwnKey(s, id) in OwnKeys(s, user);
    PositionIsRank(OwnKeys(s, user), OwnKey(s, id));
  }

  /** Whether the search may go on after the first rows of the listing. */
  ghost predicate NotBefore(s: Store, user: int, id: int, rows: nat) {
    OwnedBy(s, id, user) ==> Newer(s, user, id) >= rows
  }

  /** The inner loop, over the rows of one page. */
  method FindOnPage(s: Store, user: int, id: int, items: seq<Key>, ghost start: nat) returns (found: bool)
    requires start + |items| <= |Sort(OwnKeys(s, user))| && items == Sort(OwnKeys(s, user))[start..start + |items|]
    requires NotBefore(s, user, id, start)
    ensures found <==> OwnedBy(s, id, user) && Newer(s, user, id) < start + |items|
  {
    ghost var sorted := Sort(OwnKeys(s, user));
    for j := 0 to |items|
      invariant NotBefore(s, user, id, start + j)
    {
      assert items[j] == sorted[start + j];
      if items[j].1 == -id {
        ListedAt(s, user, id, start + j);
        return true;
      }
      if OwnedBy(s, id, user) {
        OwnedIsListed(s, user, id);
      }
    }
    return false;
  }

  /** A page of a listing that goes on at the start-th row. */
  lemma PageOfListing(s: Store, user: int, cursor: Option<Key>, start: nat)
    requires start <= |Sort(OwnKeys(s, user))|
    requires Sort(After(OwnKeys(s, user), cursor)) == Sort(OwnKeys(s, user))[start..]
    ensures var page, sorted := ListMy(s, user, PAGE_LIMIT, cursor), Sort(OwnKeys(s, user));
            && start + |page.items| <= |sorted| && page.items == sorted[start..start + |page.items|]
            && (page.next.None? ==> start + |page.items| == |sorted|)
            && (page.next.Some? ==> |page.items| == PAGE_LIMIT
                                    && Sort(After(OwnKeys(s, user), page.next)) == sorted[start + PAGE_LIMIT..])
  {
    var page := ListMy(s, user, PAGE_LIMIT, cursor);
    if page.next.Some? {
      NextPageContinues(OwnKeys(s, user), PAGE_LIMIT, cursor);
    }
  }

  /** How the loop ends: on an unanswered page, with the row on this page, or past the last row. */
  lemma PageDecides(s: Store, user: int, id: int, answered: seq<bool>, i: nat, end: nat)
    requires |answered| == PAGES && i < PAGES && end <= (i + 1) * PAGE_LIMIT
    requires NotBefore(s, user, id, i * PAGE_LIMIT) && forall k :: 0 <= k < i ==> answered[k]
    ensures !answered[i] ==> TopicOf(s, user, id, answered) == None
    ensures answered[i] && OwnedBy(s, id, user) && Newer(s, user, id) < end ==>
              TopicOf(s, user, id, answered) == Some(s.rows[id].topic)
  {
    if OwnedBy(s, id, user) && Newer(s, user, id) < (i + 1) * PAGE_LIMIT {
      assert Newer(s, user, id) / PAGE_LIMIT == i;
    }
    if OwnedBy(s, id, user) && Newer(s, user, id) >= i * PAGE_LIMIT {
      assert Newer(s, user, id) / PAGE_LIMIT >= i;
    }
  }

  /** On an unchanging listing the bounded page loop finds the topic exactly when the subscription is
      among the user's 10000 newest and the pages up to its own are answered. */
  method FindTopicIdBySubscriptionId(s: Store, user: int, id: int, answered: seq<bool>) returns (topic: Option<int>)
    requires |answered| == PAGES
    ensures topic == TopicOf(s, user, id, answered)
  {
    if OwnedBy(s, id, user) {
      OwnedIsListed(s, user, id);
    }
    var cursor := None;
    assert After(OwnKeys(s, user), None) == OwnKeys(s, user);
    ghost var start := 0;
    for i := 0 to PAGES
      invariant start == i * PAGE_LIMIT && start <= |Sort(OwnKeys(s, user))|
      invariant Sort(After(OwnKeys(s, user), cursor)) == Sort(OwnKeys(s, user))[start..]
      invariant forall k :: 0 <= k < i ==> answered[k]
      invariant NotBefore(s, user, id, start)
    {
      assert (i + 1) * PAGE_LIMIT == start + PAGE_LIMIT;
      PageDecides(s, user, id, answered, i, start);
      if !answered[i] {
        return None;
      }
      PageOfListing(s, user, cursor, start);
      var page := ListMy(s, user, PAGE_LIMIT, cursor);
      var found := FindOnPage(s, user, id, page.items, start);
      PageDecides(s, user, id, answered, i, start + |page.items|);
      if found {
        return Some(s.rows[id].topic);
      }
      if page.next.None? {
        return None;
      }
      cursor, start := page.next, start + PAGE_LIMIT;
    }
    return None;
  }

  /** A user with at most 10000 subscriptions is always served. */
  lemma SmallListingsAreSearchedWhole(s: Store, user: int, id: int, answered: seq<bool>)
    requires answered == seq(PAGES, _ => true) && |OwnKeys(s, user)| <= PAGES * PAGE_LIMIT
    ensures TopicOf(s, user, id, answered) == if OwnedBy(s, id, user) then Some(s.rows[id].topic) else None
  {
    if OwnedBy(s, id, user) {
      OwnedIsListed(s, user, id);
      SortSorts(OwnKeys(s, user));
    }
  }
}
