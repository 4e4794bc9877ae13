/** The subscriptions service: one row per user and topic with delivery preferences, and the two
    paged listings over it. The database is a Store value; steps of concurrent requests interleave
    as Actions, and class SubscriptionsDb holds the tables that whole requests update. */
module Subscriptions {
  import opened Options
  import opened QuietHours
  import opened Channels
  import opened Keyset

  datatype Preferences = Preferences(channels: seq<string>, window: Window)

  datatype Subscription = Subscription(user: int, topic: int, active: bool, createdAt: int, prefs: Preferences)

  /** The optional fields of a preferences patch. */
  datatype Patch = Patch(channels: Option<seq<string>>, quiet: Option<(TimeOfDay, TimeOfDay)>, timezone: Option<string>)

  /** An update request that has read its row and holds what it is about to write: the activity, if
      it differs from what was read, and the merged preferences, if there is a patch. */
  datatype Pending = Pending(id: int, user: int, active: Option<bool>, prefs: Option<Preferences>)

  datatype Store = Store(topics: set<int>, rows: map<int, Subscription>, pending: map<int, Pending>)

  datatype Error = NotFound | Invalid

  datatype Result<+T> = Ok(value: T) | Err(error: Error)

  const DEFAULTS: Preferences := Preferences(["push"], Window(None, None, "UTC"))

  const EMPTY: Store := Store({}, map[], map[])

  predicate KnownZone(zones: Zones, name: string) {
    name == "UTC" || (name != "" && name in zones)
  }

  /** The preferences an update writes: the patched fields over the ones it has read. */
  function MergePatch(zones: Zones, prefs: Preferences, patch: Patch): Result<Preferences> {
    var channels := if patch.channels.Some? then Normalize(patch.channels.value) else prefs.channels;
    var timezone := if patch.timezone.Some? then Strip(patch.timezone.value) else prefs.window.timezone;
    var (start, end) :=
      if patch.quiet.None? then
        (prefs.window.start, prefs.window.end)
      else if patch.quiet.value.0 == patch.quiet.value.1 then
        (None, None)
      else
        (Some(patch.quiet.value.0), Some(patch.quiet.value.1));
    if patch.channels.Some? && channels == [] then
      Err(Invalid)
    else if patch.timezone.Some? && !KnownZone(zones, timezone) then
      Err(Invalid)
    else if start.Some? != end.Some? then
      Err(Invalid)
    else
      Ok(Preferences(channels, Window(start, end, timezone)))
  }

  /** The database check on stored channels. */
  predicate ChannelsAllowed(channels: seq<string>) {
    channels != [] && forall c :: c in channels ==> c in ALLOWED
  }

  /* ---------- Statements ---------- */

  datatype Action =
    | CreateTopic(topic: int)
    | Insert(id: int, user: int, topic: int, now: int)
    | SetActive(id: int, user: int, active: bool)
    | ReadForUpdate(request: int, id: int, user: int, isActive: Option<bool>, patch: Option<Patch>)
    | WriteUpdate(request: int)

  function OfUserAndTopic(s: Store, user: int, topic: int): set<int> {
    set id | id in s.rows && s.rows[id].user == user && s.rows[id].topic == topic
  }

  predicate OwnedBy(s: Store, id: int, user: int) {
    id in s.rows && s.rows[id].user == user
  }

  /** One statement or transaction; where a constraint refuses it, nothing changes. */
  function Step(zones: Zones, s: Store, a: Action): Store {
    match a
    case CreateTopic(topic) =>
      s.(topics := s.topics + {topic})
    case Insert(id, user, topic, now) =>
      if id in s.rows || topic !in s.topics || OfUserAndTopic(s, user, topic) != {} then s
      else s.(rows := s.rows[id := Subscription(user, topic, true, now, DEFAULTS)])
    case SetActive(id, user, active) =>
      if !OwnedBy(s, id, user) then s
      else s.(rows := s.rows[id := s.rows[id].(active := active)])
    case ReadForUpdate(request, id, user, active, patch) =>
      if request in s.pending || !OwnedBy(s, id, user) then s
      else
        var change := if active == Some(s.rows[id].active) then None else active;
        if patch.None? then s.(pending := s.pending[request := Pending(id, user, change, None)])
        else
          var merged := MergePatch(zones, s.rows[id].prefs, patch.value);
          if merged.Err? then s
          else s.(pending := s.pending[request := Pending(id, user, change, Some(merged.value))])
    case WriteUpdate(request) =>
      if request !in s.pending then s
      else
        var p := s.pending[request];
        var rest := s.(pending := s.pending - {request});
        if !OwnedBy(s, p.id, p.user) then rest
        else if p.prefs.Some? && !ChannelsAllowed(p.prefs.value.channels) then rest
        else
          var row := s.rows[p.id];
          rest.(rows := s.rows[p.id := row.(active := if p.active.Some? then p.active.value else row.active,
                                            prefs := if p.prefs.Some? then p.prefs.value else row.prefs)])
  }

  function Run(zones: Zones, s: Store, actions: seq<Action>): Store
    decreases |actions|
  {
    if actions == [] then s else Run(zones, Step(zones, s, actions[0]), actions[1..])
  }

  /* ---------- What every store satisfies ---------- */

  /** Quiet bounds are both absent, or both present and different. */
  predicate WindowOk(w: Window) {
    (w.start.Some? <==> w.end.Some?) && (w.start.Some? ==> w.start != w.end)
  }

  ghost predicate PreferencesOk(zones: Zones, prefs: Preferences) {
    && prefs.channels != [] && IsNormal(prefs.channels)
    && WindowOk(prefs.window)
    && KnownZone(zones, prefs.window.timezone)
  }

  ghost predicate RowOk(zones: Zones, s: Store, row: Subscription) {
    && row.topic in s.topics
    && PreferencesOk(zones, row.prefs)
    && ChannelsAllowed(row.prefs.channels)
  }

  ghost predicate Valid(zones: Zones, s: Store) {
    && (forall i, j :: i in s.rows && j in s.rows && s.rows[i].user == s.rows[j].user
                       && s.rows[i].topic == s.rows[j].topic
          ==> i == j)
    && (forall id :: id in s.rows ==> RowOk(zones, s, s.rows[id]))
    && (forall r :: r in s.pending && s.pending[r].prefs.Some? ==> PreferencesOk(zones, s.pending[r].prefs.value))
  }

  /** Rows stay, and who subscribed to what, and when, never changes. */
  ghost predicate Extends(s: Store, s': Store) {
    && s.topics <= s'.topics
    && forall id :: id in s.rows ==>
         && id in s'.rows
         && s'.rows[id].user == s.rows[id].user
         && s'.rows[id].topic == s.rows[id].topic
         && s'.rows[id].createdAt == s.rows[id].createdAt
  }

  lemma OneRowPerUserAndTopic(zones: Zones, s: Store, id: int)
    requires Valid(zones, s) && id in s.rows
    ensures OfUserAndTopic(s, s.rows[id].user, s.rows[id].topic) == {id}
  {
    var all := OfUserAndTopic(s, s.rows[id].user, s.rows[id].topic);
    forall i | i in all ensures i == id {
      assert s.rows[i].user == s.rows[id].user && s.rows[i].topic == s.rows[id].topic;
    }
    assert id in all;
  }

  lemma DefaultsOk(zones: Zones)
    ensures PreferencesOk(zones, DEFAULTS) && ChannelsAllowed(DEFAULTS.channels)
  {
    var push := "push";
    assert StripLeft(push) == push;
    assert StripRight(push) == push;
    assert Lower(push) == push;
  }

  /** A merge of valid preferences is valid, and it fails exactly for an empty channel list or a
      zone that does not exist; its check for a half-open window never fires. */
  lemma MergeKeepsPreferences(zones: Zones, prefs: Preferences, patch: Patch)
    requires PreferencesOk(zones, prefs)
    ensures var merged := MergePatch(zones, prefs, patch);
            && (merged.Ok? ==> PreferencesOk(zones, merged.value))
            && (merged.Err? <==>
                  || (patch.channels.Some? && forall i :: 0 <= i < |patch.channels.value| ==>
                        Fold(patch.channels.value[i]) == "")
                  || (patch.timezone.Some? && !KnownZone(zones, Strip(patch.timezone.value))))
  {
    if patch.channels.Some? {
      var given := patch.channels.value;
      NormalizeKeepsNames(given);
      if Normalize(given) == [] {
        forall i | 0 <= i < |given| ensures Fold(given[i]) == "" {
          assert Fold(given[i]) !in Normalize(given);
        }
      } else {
        assert Normalize(given)[0] in Normalize(given);
      }
    }
  }

  lemma InsertKeepsValid(zones: Zones, s: Store, id: int, user: int, topic: int, now: int)
    requires Valid(zones, s) && id !in s.rows && topic in s.topics && OfUserAndTopic(s, user, topic) == {}
    ensures Valid(zones, s.(rows := s.rows[id := Subscription(user, topic, true, now, DEFAULTS)]))
  {
    DefaultsOk(zones);
    forall i | i in s.rows && s.rows[i].user == user && s.rows[i].topic == topic
      ensures i in OfUserAndTopic(s, user, topic)
    {
    }
  }

  /** Rewriting one row's activity and preferences. */
  lemma RewriteKeepsValid(zones: Zones, s: Store, id: int, active: bool, prefs: Preferences)
    requires Valid(zones, s) && id in s.rows && PreferencesOk(zones, prefs) && ChannelsAllowed(prefs.channels)
    ensures Valid(zones, s.(rows := s.rows[id := s.rows[id].(active := active, prefs := prefs)]))
  {
  }

  lemma ReadKeepsValid(zones: Zones, s: Store, request: int, id: int, user: int, active: Option<bool>,
                       patch: Option<Patch>)
    requires Valid(zones, s)
    ensures Valid(zones, Step(zones, s, ReadForUpdate(request, id, user, active, patch)))
  {
    if patch.Some? && OwnedBy(s, id, user) {
      assert RowOk(zones, s, s.rows[id]);
      MergeKeepsPreferences(zones, s.rows[id].prefs, patch.value);
    }
  }

  lemma WriteKeepsValid(zones: Zones, s: Store, request: int)
    requires Valid(zones, s)
    ensures Valid(zones, Step(zones, s, WriteUpdate(request)))
  {
    if request in s.pending && s.pending[request].id in s.rows {
      var p, row := s.pending[request], s.rows[s.pending[request].id];
      assert RowOk(zones, s, row);
      var prefs := if p.prefs.Some? then p.prefs.value else row.prefs;
      if ChannelsAllowed(prefs.channels) {
        RewriteKeepsValid(zones, s.(pending := s.pending - {request}), p.id,
                          if p.active.Some? then p.active.value else row.active, prefs);
      }
    }
  }

  lemma StepKeepsValid(zones: Zones, s: Store, a: Action)
    requires Valid(zones, s)
    ensures Valid(zones, Step(zones, s, a)) && Extends(s, Step(zones, s, a))
  {
    StepKeepsRows(zones, s, a);
    match a {
      case CreateTopic(topic) =>
      case Insert(id, user, topic, now) =>
        if id !in s.rows && topic in s.topics && OfUserAndTopic(s, user, topic) == {} {
          InsertKeepsValid(zones, s, id, user, topic, now);
        }
      case SetActive(id, user, active) =>
        if OwnedBy(s, id, user) {
          assert RowOk(zones, s, s.rows[id]);
          RewriteKeepsValid(zones, s, id, active, s.rows[id].prefs);
        }
      case ReadForUpdate(request, id, user, active, patch) =>
        ReadKeepsValid(zones, s, request, id, user, active, patch);
      case WriteUpdate(request) => WriteKeepsValid(zones, s, request);
    }
  }

  lemma StepKeepsRows(zones: Zones, s: Store, a: Action)
    ensures Extends(s, Step(zones, s, a))
  {
  }

  /** Over every interleaving of requests the store stays valid and only grows. */
  lemma {:induction false} RunKeepsValid(zones: Zones, s: Store, actions: seq<Action>)
    requires Valid(zones, s)
    ensures Valid(zones, Run(zones, s, actions)) && Extends(s, Run(zones, s, actions))
    decreases |actions|
  {
    if actions != [] {
      StepKeepsValid(zones, s, actions[0]);
      RunKeepsValid(zones, Step(zones, s, actions[0]), actions[1..]);
    }
  }

  /** The fan-out's own normaliser finds nothing to do on stored channels. */
  lemma StoredChannelsAreNormal(zones: Zones, actions: seq<Action>, id: int)
    requires id in Run(zones, EMPTY, actions).rows
    ensures var channels := Run(zones, EMPTY, actions).rows[id].prefs.channels;
            Normalize(channels) == channels && ChannelsAllowed(channels)
  {
    RunKeepsValid(zones, EMPTY, actions);
    NormalIsFixed(Run(zones, EMPTY, actions).rows[id].prefs.channels);
  }

  /* ---------- Listings ---------- */

  /** One item of the internal subscriber listing. */
  datatype Subscriber = Subscriber(user: int, id: int, prefs: Preferences)

  datatype Listing = Listing(items: seq<Subscriber>, next: Option<Key>)

  /** Active subscriptions of a topic, ordered by user and id. */
  function ActiveKeys(s: Store, topic: int): set<Key> {
    set id | id in s.rows && s.rows[id].topic == topic && s.rows[id].active :: (s.rows[id].user, id)
  }

  function ToSubscriber(s: Store, k: Key): Subscriber {
    Subscriber(k.0, k.1, if k.1 in s.rows then s.rows[k.1].prefs else DEFAULTS)
  }

  function ToSubscribers(s: Store, keys: seq<Key>): (items: seq<Subscriber>)
    ensures |items| == |keys|
  {
    seq(|keys|, i requires 0 <= i < |keys| => ToSubscriber(s, keys[i]))
  }

  function ListInternalSubscribers(s: Store, topic: int, limit: nat, cursor: Option<Key>): Result<Listing>
    requires limit >= 1
  {
    if topic !in s.topics then
      Err(NotFound)
    else
      var page := FetchPage(ActiveKeys(s, topic), limit, cursor);
      Ok(Listing(ToSubscribers(s, page.items), page.next))
  }

  /** How a subscriber scan ends: after its last page, on a missing topic, or not yet. */
  datatype Ending = Finished | MissingTopic | Unfinished

  datatype SubscriberScan = SubscriberScan(items: seq<Subscriber>, ending: Ending)

  /** The pages that one scan reads; the i-th fetch sees the i-th store. */
  function ScanSubscribers(stores: seq<Store>, topic: int, limit: nat, cursor: Option<Key>): SubscriberScan
    requires limit >= 1
    decreases |stores|
  {
    if stores == [] then
      SubscriberScan([], Unfinished)
    else
      match ListInternalSubscribers(stores[0], topic, limit, cursor)
      case Err(_) => SubscriberScan([], MissingTopic)
      case Ok(page) =>
        if page.next.None? then
          SubscriberScan(page.items, Finished)
        else
          var rest := ScanSubscribers(stores[1..], topic, limit, page.next);
          SubscriberScan(page.items + rest.items, rest.ending)
  }

  /** What is yielded in all, when these items are yielded before the rest of the scan. */
  function Before(items: seq<Subscriber>, rest: SubscriberScan): SubscriberScan {
    SubscriberScan(items + rest.items, rest.ending)
  }

  lemma ScanUnfolds(stores: seq<Store>, topic: int, limit: nat, cursor: Option<Key>, items: seq<Subscriber>)
    requires limit >= 1 && stores != []
    ensures Before(items, ScanSubscribers(stores, topic, limit, cursor))
         == match ListInternalSubscribers(stores[0], topic, limit, cursor)
            case Err(_) => SubscriberScan(items, MissingTopic)
            case Ok(page) =>
              if page.next.None? then
                SubscriberScan(items + page.items, Finished)
              else
                Before(items + page.items, ScanSubscribers(stores[1..], topic, limit, page.next))
  {
    var listing := ListInternalSubscribers(stores[0], topic, limit, cursor);
    if listing.Ok? && listing.value.next.Some? {
      BeforeJoins(items, listing.value.items, ScanSubscribers(stores[1..], topic, limit, listing.value.next));
    } else {
      assert items + [] == items;
    }
  }

  lemma BeforeJoins(first: seq<Subscriber>, second: seq<Subscriber>, rest: SubscriberScan)
    ensures Before(first, Before(second, rest)) == Before(first + second, rest)
  {
    assert first + (second + rest.items) == first + second + rest.items;
  }

  method IterSubscribers(stores: seq<Store>, topic: int, limit: nat) returns (items: seq<Subscriber>, ending: Ending)
    requires limit >= 1
    ensures SubscriberScan(items, ending) == ScanSubscribers(stores, topic, limit, None)
  {
    var cursor := None;
    items, ending := [], Unfinished;
    assert stores[0..] == stores;
    for i := 0 to |stores|
      invariant Before(items, ScanSubscribers(stores[i..], topic, limit, cursor))
                == ScanSubscribers(stores, topic, limit, None)
      invariant ending == Unfinished
    {
      assert stores[i..][0] == stores[i] && stores[i..][1..] == stores[i + 1..];
      ScanUnfolds(stores[i..], topic, limit, cursor, items);
      match ListInternalSubscribers(stores[i], topic, limit, cursor) {
        case Err(_) =>
          ending := MissingTopic;
          return;
        case Ok(page) =>
          items := items + page.items;
          if page.next.None? {
            ending := Finished;
            return;
          }
          cursor := page.next;
      }
    }
  }

  function Tables(stores: seq<Store>, topic: int): (tables: seq<set<Key>>)
    ensures |tables| == |stores|
  {
    seq(|stores|, i requires 0 <= i < |stores| => ActiveKeys(stores[i], topic))
  }

  function KeyOf(item: Subscriber): Key {
    (item.user, item.id)
  }

  function KeysOf(items: seq<Subscriber>): (keys: seq<Key>)
    ensures |keys| == |items|
  {
    seq(|items|, i requires 0 <= i < |items| => KeyOf(items[i]))
  }

  lemma KeysOfJoin(first: seq<Subscriber>, second: seq<Subscriber>)
    ensures KeysOf(first + second) == KeysOf(first) + KeysOf(second)
  {
  }

  lemma KeysOfPage(s: Store, keys: seq<Key>)
    ensures KeysOf(ToSubscribers(s, keys)) == keys
  {
  }

  /** Where the topic exists, the scan is the key scan of module Keyset, row for row. */
  lemma {:induction false} ScanFollowsKeys(stores: seq<Store>, topic: int, limit: nat, cursor: Option<Key>)
    requires limit >= 1 && forall i :: 0 <= i < |stores| ==> topic in stores[i].topics
    ensures var scan := ScanSubscribers(stores, topic, limit, cursor);
            var keys := ScanFrom(Tables(stores, topic), limit, cursor);
            && KeysOf(scan.items) == keys.items
            && scan.ending == if keys.finished then Finished else Unfinished
    decreases |stores|
  {
    if stores != [] {
      var page := FetchPage(ActiveKeys(stores[0], topic), limit, cursor);
      assert Tables(stores, topic)[1..] == Tables(stores[1..], topic);
      KeysOfPage(stores[0], page.items);
      if page.next.Some? {
        ScanFollowsKeys(stores[1..], topic, limit, page.next);
        KeysOfJoin(ToSubscribers(stores[0], page.items), ScanSubscribers(stores[1..], topic, limit, page.next).items);
      }
    }
  }

  /** Whatever subscribes, unsubscribes and updates happen between the pages: nobody is yielded
      twice, and everybody who was subscribed throughout has been yielded when the scan finishes. */
  lemma SubscriberScanSurvivesChange(stores: seq<Store>, topic: int, limit: nat)
    requires limit >= 1 && forall i :: 0 <= i < |stores| ==> topic in stores[i].topics
    ensures var scan := ScanSubscribers(stores, topic, limit, None);
            && (forall i, j :: 0 <= i < j < |scan.items| ==> KeyOf(scan.items[i]) != KeyOf(scan.items[j]))
            && (scan.ending.Finished? ==>
                  forall id, user :: (forall i :: 0 <= i < |stores| ==>
                      && id in stores[i].rows && stores[i].rows[id].user == user
                      && stores[i].rows[id].topic == topic && stores[i].rows[id].active)
                    ==> (user, id) in KeysOf(scan.items))
  {
    ScanFollowsKeys(stores, topic, limit, None);
    ScanSurvivesChange(Tables(stores, topic), limit, None);
    var items := ScanSubscribers(stores, topic, limit, None).items;
    forall i, j | 0 <= i < j < |items| ensures KeyOf(items[i]) != KeyOf(items[j]) {
      assert Lt(KeysOf(items)[i], KeysOf(items)[j]);
    }
  }

  /** On an unchanging store the scan yields exactly the sorted active subscriptions, with the
      preferences stored for them, and it finishes with the page that holds the last one. */
  lemma SubscriberScanOfUnchangingStore(s: Store, n: nat, topic: int, limit: nat)
    requires limit >= 1 && topic in s.topics
    ensures var scan, active := ScanSubscribers(seq(n, _ => s), topic, limit, None), ActiveKeys(s, topic);
            && (scan.ending.Finished? <==> n >= 1 && |active| <= n * limit)
            && (scan.ending.Finished? ==>
                  && KeysOf(scan.items) == Sort(active)
                  && forall i :: 0 <= i < |scan.items| ==>
                       scan.items[i].id in s.rows && scan.items[i].prefs == s.rows[scan.items[i].id].prefs)
  {
    var active := ActiveKeys(s, topic);
    ScanFollowsKeys(seq(n, _ => s), topic, limit, None);
    assert Tables(seq(n, _ => s), topic) == Unchanging(active, n);
    ScanOfUnchangingTable(active, n, limit, None);
    assert After(active, None) == active;
    SortSorts(active);
    ItemsAreRows(s, n, topic, limit, None);
    var items := ScanSubscribers(seq(n, _ => s), topic, limit, None).items;
    forall i | 0 <= i < |items| && KeysOf(items) == Sort(active)
      ensures items[i].id in s.rows && items[i].prefs == s.rows[items[i].id].prefs
    {
      assert KeysOf(items)[i] in Sort(active);
    }
  }

  lemma ToSubscribersJoin(s: Store, first: seq<Key>, second: seq<Key>)
    ensures ToSubscribers(s, first + second) == ToSubscribers(s, first) + ToSubscribers(s, second)
  {
  }

  lemma {:induction false} ItemsAreRows(s: Store, n: nat, topic: int, limit: nat, cursor: Option<Key>)
    requires limit >= 1 && topic in s.topics
    ensures ScanSubscribers(seq(n, _ => s), topic, limit, cursor).items
         == ToSubscribers(s, ScanFrom(Unchanging(ActiveKeys(s, topic), n), limit, cursor).items)
    decreases n
  {
    if n > 0 {
      var active := ActiveKeys(s, topic);
      assert seq(n, _ => s)[1..] == seq(n - 1, _ => s);
      assert Unchanging(active, n)[1..] == Unchanging(active, n - 1);
      var page := FetchPage(active, limit, cursor);
      if page.next.Some? {
        ItemsAreRows(s, n - 1, topic, limit, page.next);
        var rest := ScanFrom(Unchanging(active, n - 1), limit, page.next).items;
        ToSubscribersJoin(s, page.items, rest);
      }
    }
  }

  /** A user's own subscriptions, newest first: the descending order is the ascending order of the
      negated key. */
  function OwnKeys(s: Store, user: int): set<Key> {
    set id | id in s.rows && s.rows[id].user == user :: (-s.rows[id].createdAt, -id)
  }

  function ListMy(s: Store, user: int, limit: nat, cursor: Option<Key>): Page
    requires limit >= 1
  {
    FetchPage(OwnKeys(s, user), limit, cursor)
  }

  /* ---------- Whole requests on the tables ---------- */

  /** Subscribing again: the user's one row of the topic is active. */
  lemma ReactivatedRow(zones: Zones, s: Store, id: int)
    requires Valid(zones, s) && id in s.rows
    ensures var row := s.rows[id];
            var s' := Step(zones, s, SetActive(id, row.user, true));
            && s' == s.(rows := s.rows[id := row.(active := true)]) && Valid(zones, s')
            && OfUserAndTopic(s', row.user, row.topic) == {id} && OfUserAndTopic(s, row.user, row.topic) == {id}
  {
    StepKeepsValid(zones, s, SetActive(id, s.rows[id].user, true));
    OneRowPerUserAndTopic(zones, s, id);
    OneRowPerUserAndTopic(zones, Step(zones, s, SetActive(id, s.rows[id].user, true)), id);
  }

  /** Subscribing for the first time. */
  lemma NewRow(zones: Zones, s: Store, id: int, user: int, topic: int, now: int)
    requires Valid(zones, s) && id !in s.rows && topic in s.topics
    requires forall i :: i in s.rows ==> !(s.rows[i].user == user && s.rows[i].topic == topic)
    ensures var s' := Step(zones, s, Insert(id, user, topic, now));
            && s' == s.(rows := s.rows[id := Subscription(user, topic, true, now, DEFAULTS)]) && Valid(zones, s')
            && OfUserAndTopic(s', user, topic) == {id} && OfUserAndTopic(s, user, topic) == {}
  {
    assert forall i :: i in s.rows ==> i !in OfUserAndTopic(s, user, topic);
    StepKeepsValid(zones, s, Insert(id, user, topic, now));
    OneRowPerUserAndTopic(zones, Step(zones, s, Insert(id, user, topic, now)), id);
  }

  class SubscriptionsDb {
    var topics: set<int>
    var rows: map<int, Subscription>
    const zones: Zones

    constructor (zones: Zones)
      ensures this.zones == zones && View() == EMPTY
    {
      this.zones := zones;
      topics, rows := {}, map[];
    }

    function View(): Store
      reads this
    {
      Store(topics, rows, map[])
    }

    /** Subscribing again reactivates the one row of the user and topic; it never adds another. */
    method Subscribe(freshId: int, user: int, topic: int, now: int) returns (r: Result<(int, bool)>)
      requires Valid(zones, View()) && freshId !in rows
      modifies this`rows
      ensures Valid(zones, View())
      ensures topic !in topics <==> r == Err(NotFound)
      ensures r.Err? ==> rows == old(rows)
      ensures r.Ok? ==>
        && OfUserAndTopic(View(), user, topic) == {r.value.0}
        && rows[r.value.0].active
        && View() == Step(zones, old(View()), if r.value.1 then Insert(freshId, user, topic, now)
                                              else SetActive(r.value.0, user, true))
        && (r.value.1 <==> OfUserAndTopic(old(View()), user, topic) == {})
    {
      if topic !in topics {
        return Err(NotFound);
      }
      if id :| id in rows && rows[id].user == user && rows[id].topic == topic {
        ReactivatedRow(zones, View(), id);
        if !rows[id].active {
          rows := rows[id := rows[id].(active := true)];
        }
        assert rows == old(rows)[id := old(rows)[id].(active := true)];
        return Ok((id, false));
      }
      NewRow(zones, View(), freshId, user, topic, now);
      rows := rows[freshId := Subscription(user, topic, true, now, DEFAULTS)];
      return Ok((freshId, true));
    }

    /** Unsubscribing is soft: the row stays and only stops being active. */
    method Unsubscribe(user: int, id: int) returns (r: Result<()>)
      requires Valid(zones, View())
      modifies this`rows
      ensures Valid(zones, View())
      ensures r == if OwnedBy(old(View()), id, user) then Ok(()) else Err(NotFound)
      ensures View() == Step(zones, old(View()), SetActive(id, user, false))
    {
      StepKeepsValid(zones, View(), SetActive(id, user, false));
      if id !in rows || rows[id].user != user {
        return Err(NotFound);
      }
      if rows[id].active {
        rows := rows[id := rows[id].(active := false)];
      } else {
        assert rows == rows[id := rows[id].(active := false)];
      }
      return Ok(());
    }

    /** An update without interference is the read and the write in a row. */
    method UpdateSubscription(user: int, id: int, isActive: Option<bool>, patch: Option<Patch>)
        returns (r: Result<Subscription>)
      modifies this`rows
      ensures View()
              == Step(zones, Step(zones, old(View()), ReadForUpdate(0, id, user, isActive, patch)), WriteUpdate(0))
      ensures r.Ok? ==> OwnedBy(View(), id, user) && r.value == rows[id]
      ensures r == Err(NotFound) <==> !OwnedBy(old(View()), id, user)
      ensures r.Err? ==> rows == old(rows)
    {
      if id !in rows || rows[id].user != user {
        return Err(NotFound);
      }
      var existing := rows[id];
      var target := existing.prefs;
      if patch.Some? {
        var merged := MergePreferences(existing.prefs, patch.value);
        if merged.Err? || !ChannelsAllowed(merged.value.channels) {
          return Err(Invalid);
        }
        target := merged.value;
      }
      var targetActive := if isActive.None? then existing.active else isActive.value;
      if targetActive != existing.active {
        rows := rows[id := existing.(active := targetActive)];
      }
      if patch.Some? {
        rows := rows[id := rows[id].(prefs := target)];
      }
      assert rows == old(rows)[id := existing.(active := targetActive, prefs := target)];
      return Ok(rows[id]);
    }

    method MergePreferences(prefs: Preferences, patch: Patch) returns (r: Result<Preferences>)
      ensures r == MergePatch(zones, prefs, patch)
    {
      var channels, window := prefs.channels, prefs.window;
      if patch.channels.Some? {
        channels := NormalizeChannels(patch.channels.value);
        if channels == [] {
          return Err(Invalid);
        }
      }
      if patch.timezone.Some? {
        window := window.(timezone := Strip(patch.timezone.value));
        if !KnownZone(zones, window.timezone) {
          return Err(Invalid);
        }
      }
      if patch.quiet.Some? {
        var (start, end) := patch.quiet.value;
        if start == end {
          window := window.(start := None, end := None);
        } else {
          window := window.(start := Some(start), end := Some(end));
        }
      }
      if window.start.Some? != window.end.Some? {
        return Err(Invalid);
      }
      return Ok(Preferences(channels, window));
    }
  }
}
