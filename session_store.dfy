/**
 * Conversation sessions and the in-memory session store: a dictionary keyed
 * by "<product>:<session id>" with a capacity bound, evicting the least
 * recently updated session when a new key arrives at capacity. Of the Redis
 * store only the key format and the key split used when listing are modelled.
 */
module SessionStore {
  import opened Wrappers
  import opened Text
  import opened LlmClient
  import opened Products

  // ---------------------------------------------------------------------------
  // Keys

  /** `_make_key` of the in-memory store. */
  function MakeKey(sessionId: string, product: ProductType): string
  {
    product.Value() + ":" + sessionId
  }

  /** The key is the product value, one ':', then the session id. */
  lemma MakeKeyLayout(sessionId: string, product: ProductType)
    ensures var k := MakeKey(sessionId, product);
      && |k| == |product.Value()| + 1 + |sessionId|
      && k[..|product.Value()|] == product.Value() && k[|product.Value()|] == ':'
      && k[|product.Value()| + 1..] == sessionId
  {
  }

  /** Product values contain no ':', so distinct (product, id) pairs never share a key. */
  lemma KeyInjective(id1: string, p1: ProductType, id2: string, p2: ProductType)
    ensures MakeKey(id1, p1) == MakeKey(id2, p2) <==> id1 == id2 && p1 == p2
  {
    if MakeKey(id1, p1) == MakeKey(id2, p2) {
      ValueFacts(p1);
      ValueFacts(p2);
      SplitAfterPiece(p1.Value(), ':', id1);
      SplitAfterPiece(p2.Value(), ':', id2);
      assert p1.Value() == Split(MakeKey(id1, p1), ':')[0];
      assert p2.Value() == Split(MakeKey(id2, p2), ':')[0];
      assert ProductOf(p1.Value()) == ProductOf(p2.Value());
      assert id1 == MakeKey(id1, p1)[|p1.Value()| + 1..];
      assert id2 == MakeKey(id2, p2)[|p2.Value()| + 1..];
    }
  }

  /** `_make_key` of the Redis store. */
  function RedisKey(sessionId: string, product: ProductType): (k: string)
    ensures |k| == 8 + |MakeKey(sessionId, product)|
    ensures k[..8] == "session:" && k[8..] == MakeKey(sessionId, product)
  {
    "session:" + product.Value() + ":" + sessionId
  }

  /** What listing makes of a scanned Redis key. */
  datatype ListedKey =
    | Listed(product: ProductType, sessionId: string)
    | Skipped                        // the key does not split into exactly three parts
    | UnknownProduct(value: string)  // `ProductType(prod)` raises

  /** The key split in `list_sessions`: three ':'-separated parts, the first ignored. */
  function ParseRedisKey(key: string): (r: ListedKey)
    ensures r.Listed? ==>
      && ':' !in r.sessionId
      && key == Split(key, ':')[0] + ":" + r.product.Value() + ":" + r.sessionId
    ensures r.Skipped? <==> Count(key, ':') != 2
  {
    var parts := Split(key, ':');
    SplitLength(key, ':');
    SplitPiecesFree(key, ':');
    JoinSplit(key, ':');
    JoinThree(":", parts);
    if |parts| != 3 then Skipped
    else
      match ProductOf(parts[1])
      case None => UnknownProduct(parts[1])
      case Some(p) => Listed(p, parts[2])
  }

  lemma JoinThree(sep: string, parts: seq<string>)
    ensures |parts| == 3 ==> Join(sep, parts) == parts[0] + sep + parts[1] + sep + parts[2]
  {
    if |parts| == 3 {
      assert parts[1..][1..] == [parts[2]];
      assert Join(sep, parts[1..]) == parts[1] + sep + parts[2];
      assert parts[0] + sep + (parts[1] + sep + parts[2]) == parts[0] + sep + parts[1] + sep + parts[2];
    }
  }

  /** A session stored under its Redis key is listed again iff its id has no ':'. */
  lemma RedisKeyListedIff(sessionId: string, product: ProductType)
    ensures ParseRedisKey(RedisKey(sessionId, product))
         == (if ':' in sessionId then Skipped else Listed(product, sessionId))
  {
    ValueFacts(product);
    var prefix := "session";
    assert ':' !in prefix;
    assert RedisKey(sessionId, product) == prefix + ":" + product.Value() + ":" + sessionId;
    ParseThreePieces(prefix, product.Value(), sessionId);
  }

  /** Parsing `prefix:value:id` with ':'-free prefix and value: the id decides, then the value. */
  lemma ParseThreePieces(prefix: string, value: string, id: string)
    requires ':' !in prefix && ':' !in value
    ensures ParseRedisKey(prefix + ":" + value + ":" + id)
         == if ':' in id then Skipped
            else if ProductOf(value).None? then UnknownProduct(value)
            else Listed(ProductOf(value).value, id)
  {
    var key := prefix + ":" + value + ":" + id;
    assert key == prefix + [':'] + (value + [':'] + id);
    SplitAfterPiece(prefix, ':', value + [':'] + id);
    SplitAfterPiece(value, ':', id);
    var parts := Split(key, ':');
    assert parts == [prefix, value] + Split(id, ':');
    SplitLength(id, ':');
    CountZero(id, ':');
    if ':' !in id {
      SplitNoSeparator(id, ':');
    }
  }

  // ---------------------------------------------------------------------------
  // Sessions

  /** A conversation session. `add_message` updates it in place. */
  class Session {
    const sessionId: string
    const product: ProductType
    var messages: seq<Message>
    const createdAt: Time
    var updatedAt: Time
    const metadata: map<string, string>

    /** The dataclass constructor; both timestamps default to "now" and are read separately. */
    constructor(sessionId: string, product: ProductType, messages: seq<Message>, createdAt: Time, updatedAt: Time)
      ensures this.sessionId == sessionId && this.product == product && this.messages == messages
      ensures this.createdAt == createdAt && this.updatedAt == updatedAt && metadata == map[]
    {
      this.sessionId := sessionId;
      this.product := product;
      this.messages := messages;
      this.createdAt := createdAt;
      this.updatedAt := updatedAt;
      this.metadata := map[];
    }

    function MessageCount(): (n: nat)
      reads this
      ensures n == |messages|
    {
      |messages|
    }

    /** Appends exactly one message at the end and stamps the session with `now`. */
    method AddMessage(message: Message, now: Time)
      modifies this
      ensures messages == old(messages) + [message]
      ensures MessageCount() == old(MessageCount()) + 1
      ensures messages[..old(MessageCount())] == old(messages) && messages[|messages| - 1] == message
      ensures updatedAt == now
    {
      messages := messages + [message];
      updatedAt := now;
    }
  }

  // ---------------------------------------------------------------------------
  // Snapshots of the store, and the pure parts of eviction and listing

  /** A stored session read together with its key and its `updated_at` at that moment. */
  datatype Entry = Entry(key: string, session: Session, stamp: Time)

  /** The store's entries in dictionary order. */
  function EntriesOf(ks: seq<string>, m: map<string, Session>): (es: seq<Entry>)
    reads m.Values
    requires forall k :: k in ks ==> k in m
    ensures |es| == |ks|
  {
    if ks == [] then []
    else EntriesOf(ks[..|ks| - 1], m) + [Entry(ks[|ks| - 1], m[ks[|ks| - 1]], m[ks[|ks| - 1]].updatedAt)]
  }

  /** Entry `i` is key `i` with its session and that session's current `updated_at`. */
  lemma {:induction false} EntriesOfAt(ks: seq<string>, m: map<string, Session>, i: nat)
    requires forall k :: k in ks ==> k in m
    requires i < |ks|
    ensures EntriesOf(ks, m)[i] == Entry(ks[i], m[ks[i]], m[ks[i]].updatedAt)
  {
    if i < |ks| - 1 {
      EntriesOfAt(ks[..|ks| - 1], m, i);
    }
  }

  /**
   * The position `min(keys, key=updated_at)` picks: a least stamp, and the
   * first one in dictionary order when several tie.
   */
  function FirstMinIndex(es: seq<Entry>): (r: nat)
    requires |es| > 0
    ensures r < |es|
  {
    if |es| == 1 then 0
    else
      var j := FirstMinIndex(es[..|es| - 1]);
      if es[|es| - 1].stamp < es[j].stamp then |es| - 1 else j
  }

  /** The evicted entry is a least recently updated one, and no earlier entry ties with it. */
  lemma {:induction false} FirstMinIndexIsOldest(es: seq<Entry>)
    requires |es| > 0
    ensures forall i :: 0 <= i < |es| ==> es[FirstMinIndex(es)].stamp <= es[i].stamp
    ensures forall i :: 0 <= i < FirstMinIndex(es) ==> es[i].stamp > es[FirstMinIndex(es)].stamp
  {
    if |es| > 1 {
      var front := es[..|es| - 1];
      FirstMinIndexIsOldest(front);
      var j := FirstMinIndex(front);
      assert forall i :: 0 <= i < |front| ==> front[i] == es[i];
    }
  }

  /** One more entry: it becomes the oldest only if strictly older than the oldest so far. */
  lemma FirstMinIndexSnoc(es: seq<Entry>, i: nat)
    requires 0 < i < |es|
    ensures FirstMinIndex(es[..i + 1])
         == if es[i].stamp < es[FirstMinIndex(es[..i])].stamp then i else FirstMinIndex(es[..i])
  {
    var prefix := es[..i + 1];
    assert prefix[..i] == es[..i] && prefix[i] == es[i];
  }

  predicate DistinctKeys(ks: seq<string>)
  {
    forall i, j :: 0 <= i < j < |ks| ==> ks[i] != ks[j]
  }

  lemma DistinctSnoc(ks: seq<string>, x: string)
    ensures DistinctKeys(ks) && x !in ks ==> DistinctKeys(ks + [x])
  {
  }

  /** The dictionary order after deleting key `k`. */
  function Without(ks: seq<string>, k: string): (r: seq<string>)
    ensures forall x :: x in r <==> x in ks && x != k
    ensures DistinctKeys(ks) ==> DistinctKeys(r)
    ensures k !in ks ==> r == ks
    ensures DistinctKeys(ks) && k in ks ==> |r| == |ks| - 1
  {
    if ks == [] then []
    else
      var last := ks[|ks| - 1];
      var front := ks[..|ks| - 1];
      assert ks == front + [last];
      var w := Without(front, k);
      DistinctSnoc(w, last);
      assert DistinctKeys(ks) ==> DistinctKeys(front) && last !in front;
      w + (if last == k then [] else [last])
  }

  lemma MapRemoveSize(m: map<string, Session>, k: string)
    requires k in m
    ensures |m - {k}| == |m| - 1
  {
    assert (m - {k}).Keys == m.Keys - {k};
  }

  /** The sessions of one product, or all of them, in dictionary order. */
  function OfProduct(es: seq<Entry>, product: Option<ProductType>): (r: seq<Entry>)
    ensures product.None? ==> r == es
    ensures |r| <= |es|
    ensures forall i :: 0 <= i < |r| ==> r[i] in es && (product.None? || r[i].session.product == product.value)
    ensures forall i :: 0 <= i < |es| && (product.None? || es[i].session.product == product.value) ==> es[i] in r
  {
    if es == [] then []
    else (if product.None? || es[0].session.product == product.value then [es[0]] else []) + OfProduct(es[1..], product)
  }

  /** Filtering keeps dictionary order: an entry appended to the store is filtered after the others. */
  lemma {:induction false} OfProductSnoc(es: seq<Entry>, e: Entry, product: Option<ProductType>)
    ensures OfProduct(es + [e], product)
         == OfProduct(es, product) + (if product.None? || e.session.product == product.value then [e] else [])
  {
    if es == [] {
      assert [e][1..] == [];
    } else {
      assert (es + [e])[1..] == es[1..] + [e];
      OfProductSnoc(es[1..], e, product);
    }
  }

  predicate Descending(es: seq<Entry>)
  {
    forall i, j :: 0 <= i < j < |es| ==> es[i].stamp >= es[j].stamp
  }

  /** The entries carrying stamp `t`, in order. */
  function WithStamp(es: seq<Entry>, t: Time): seq<Entry>
  {
    if es == [] then []
    else WithStamp(es[..|es| - 1], t) + (if es[|es| - 1].stamp == t then [es[|es| - 1]] else [])
  }

  /** Places `e` after every entry whose stamp is at least its own. */
  function Insert(sorted: seq<Entry>, e: Entry): seq<Entry>
  {
    if sorted == [] then [e]
    else if sorted[|sorted| - 1].stamp >= e.stamp then sorted + [e]
    else Insert(sorted[..|sorted| - 1], e) + [sorted[|sorted| - 1]]
  }

  /** `sort(key=updated_at, reverse=True)`: a stable sort, newest first. */
  function SortByRecency(es: seq<Entry>): seq<Entry>
  {
    if es == [] then []
    else Insert(SortByRecency(es[..|es| - 1]), es[|es| - 1])
  }

  lemma WithStampSnoc(es: seq<Entry>, e: Entry, t: Time)
    ensures WithStamp(es + [e], t) == WithStamp(es, t) + (if e.stamp == t then [e] else [])
  {
    assert (es + [e])[..|es|] == es;
  }

  lemma {:induction false} InsertMultiset(sorted: seq<Entry>, e: Entry)
    ensures multiset(Insert(sorted, e)) == multiset(sorted) + multiset{e}
  {
    if sorted != [] && sorted[|sorted| - 1].stamp < e.stamp {
      var front, last := sorted[..|sorted| - 1], sorted[|sorted| - 1];
      assert sorted == front + [last];
      InsertMultiset(front, e);
    }
  }

  lemma {:induction false} InsertDescending(sorted: seq<Entry>, e: Entry)
    requires Descending(sorted)
    ensures Descending(Insert(sorted, e))
  {
    if sorted != [] && sorted[|sorted| - 1].stamp < e.stamp {
      var front, last := sorted[..|sorted| - 1], sorted[|sorted| - 1];
      InsertDescending(front, e);
      InsertMultiset(front, e);
      var ins := Insert(front, e);
      forall i | 0 <= i < |ins|
        ensures ins[i].stamp >= last.stamp
      {
        assert ins[i] in multiset(ins);
        if ins[i] != e {
          assert ins[i] in multiset(front);
          var j :| 0 <= j < |front| && front[j] == ins[i];
          assert sorted[j] == ins[i];
        }
      }
      assert Insert(sorted, e) == ins + [last];
    }
  }

  lemma {:induction false} InsertWithStamp(sorted: seq<Entry>, e: Entry, t: Time)
    ensures WithStamp(Insert(sorted, e), t) == WithStamp(sorted, t) + (if e.stamp == t then [e] else [])
  {
    if sorted == [] {
      WithStampSnoc([], e, t);
    } else {
      var front, last := sorted[..|sorted| - 1], sorted[|sorted| - 1];
      assert sorted == front + [last];
      if last.stamp >= e.stamp {
        WithStampSnoc(sorted, e, t);
      } else {
        InsertWithStamp(front, e, t);
        WithStampSnoc(Insert(front, e), last, t);
        WithStampSnoc(front, last, t);
      }
    }
  }

  /** The sort keeps every entry, orders newest first, and keeps the original order among equal stamps. */
  lemma {:induction false} SortByRecencyFacts(es: seq<Entry>, t: Time)
    ensures multiset(SortByRecency(es)) == multiset(es)
    ensures |SortByRecency(es)| == |es|
    ensures Descending(SortByRecency(es))
    ensures WithStamp(SortByRecency(es), t) == WithStamp(es, t)
  {
    if es != [] {
      var front, last := es[..|es| - 1], es[|es| - 1];
      assert es == front + [last];
      SortByRecencyFacts(front, t);
      InsertMultiset(SortByRecency(front), last);
      InsertDescending(SortByRecency(front), last);
      InsertWithStamp(SortByRecency(front), last, t);
      WithStampSnoc(front, last, t);
      assert |multiset(SortByRecency(es))| == |multiset(es)|;
    }
  }

  /** With a limit covering all entries, filtering, sorting and slicing loses no entry of the product. */
  lemma ListedWhenLimitCovers(es: seq<Entry>, product: Option<ProductType>, limit: int, i: nat)
    requires i < |es| && limit >= |es|
    requires product.None? || es[i].session.product == product.value
    ensures es[i] in SlicePrefix(SortByRecency(OfProduct(es, product)), limit)
  {
    var matching := OfProduct(es, product);
    var sorted := SortByRecency(matching);
    SortByRecencyFacts(matching, 0);
    assert SlicePrefix(sorted, limit) == sorted;
    assert es[i] in matching;
    assert es[i] in multiset(sorted);
  }

  /** Filtering, sorting and slicing keeps only stored entries of the requested product. */
  lemma ListedOfProduct(es: seq<Entry>, product: Option<ProductType>, limit: int)
    ensures var listed := SlicePrefix(SortByRecency(OfProduct(es, product)), limit);
      forall i :: 0 <= i < |listed| ==>
        listed[i] in es && (product.None? || listed[i].session.product == product.value)
  {
    var matching := OfProduct(es, product);
    var sorted := SortByRecency(matching);
    SortByRecencyFacts(matching, 0);
    var listed := SlicePrefix(sorted, limit);
    forall i | 0 <= i < |listed|
      ensures listed[i] in matching
    {
      assert listed[i] == sorted[i];
      assert listed[i] in multiset(sorted);
    }
  }

  /** The listing is newest first and holds at most `limit` entries, and never more than were stored. */
  lemma ListedOrdered(es: seq<Entry>, product: Option<ProductType>, limit: int)
    ensures var listed := SlicePrefix(SortByRecency(OfProduct(es, product)), limit);
      && Descending(listed)
      && (limit >= 0 ==> |listed| <= limit)
      && |listed| <= |es|
      && var n := |OfProduct(es, product)|;
         && (limit >= 0 ==> |listed| == if limit < n then limit else n)
         && (limit < 0 ==> |listed| == if n + limit > 0 then n + limit else 0)
  {
    var sorted := SortByRecency(OfProduct(es, product));
    SortByRecencyFacts(OfProduct(es, product), 0);
    PrefixDescending(sorted, |SlicePrefix(sorted, limit)|);
  }

  /** Slicing drops only the oldest: a matching entry left out is no newer than any entry listed. */
  lemma ListedNewest(es: seq<Entry>, product: Option<ProductType>, limit: int)
    ensures var listed := SlicePrefix(SortByRecency(OfProduct(es, product)), limit);
      forall x, i :: x in OfProduct(es, product) && x !in listed && 0 <= i < |listed| ==> x.stamp <= listed[i].stamp
  {
    var matching := OfProduct(es, product);
    var sorted := SortByRecency(matching);
    SortByRecencyFacts(matching, 0);
    var listed := SlicePrefix(sorted, limit);
    forall x, i | x in matching && x !in listed && 0 <= i < |listed|
      ensures x.stamp <= listed[i].stamp
    {
      assert x in multiset(sorted);
      var j :| 0 <= j < |sorted| && sorted[j] == x;
      if j < |listed| {
        assert false;
      }
      assert listed[i] == sorted[i];
    }
  }

  /**
   * `ListedNewest` for one matching entry whose session is not listed, when
   * each entry is stamped with its session's `updated_at`.
   */
  lemma ListedSessionsNewest(es: seq<Entry>, product: Option<ProductType>, limit: int, j: nat, i: nat)
    requires forall p :: 0 <= p < |es| ==> es[p].stamp == es[p].session.updatedAt
    requires j < |es| && (product.None? || es[j].session.product == product.value)
    requires var listed := SlicePrefix(SortByRecency(OfProduct(es, product)), limit);
      && i < |listed|
      && forall m :: 0 <= m < |listed| ==> listed[m].session != es[j].session
    ensures es[j].session.updatedAt <= SlicePrefix(SortByRecency(OfProduct(es, product)), limit)[i].session.updatedAt
  {
    var listed := SlicePrefix(SortByRecency(OfProduct(es, product)), limit);
    ListedNewest(es, product, limit);
    ListedOfProduct(es, product, limit);
    assert es[j] in OfProduct(es, product);
    assert es[j] !in listed;
    assert listed[i] in es;
    var p :| 0 <= p < |es| && es[p] == listed[i];
  }

  lemma PrefixDescending(es: seq<Entry>, n: nat)
    requires Descending(es) && n <= |es|
    ensures Descending(es[..n])
  {
    forall i, j | 0 <= i < j < n
      ensures es[..n][i].stamp >= es[..n][j].stamp
    {
      assert es[..n][i] == es[i] && es[..n][j] == es[j];
    }
  }

  // ---------------------------------------------------------------------------
  // The in-memory store

  /** The key a session is saved under. */
  function KeyOf(s: Session): string
  {
    MakeKey(s.sessionId, s.product)
  }

  /**
   * Keys are listed once each, in step with the dictionary; every session
   * sits under its own key; the capacity bound holds (a store whose
   * capacity is below one stays empty).
   */
  ghost predicate StoreInvariant(keys: seq<string>, sessions: map<string, Session>, maxSessions: int)
  {
    && DistinctKeys(keys)
    && (forall k :: k in keys <==> k in sessions)
    && |keys| == |sessions|
    && (|sessions| == 0 || |sessions| <= maxSessions)
    && (forall k :: k in sessions ==> k == KeyOf(sessions[k]))
  }

  /** Removing a present key keeps the invariant and shrinks the store by one. */
  lemma RemoveKeepsInvariant(keys: seq<string>, sessions: map<string, Session>, maxSessions: int, k: string)
    requires StoreInvariant(keys, sessions, maxSessions) && k in sessions
    ensures StoreInvariant(Without(keys, k), sessions - {k}, maxSessions)
    ensures |sessions - {k}| == |sessions| - 1
  {
    MapRemoveSize(sessions, k);
  }

  /** Storing a session under its key keeps the invariant when the key is present or there is room. */
  lemma InsertKeepsInvariant(keys: seq<string>, sessions: map<string, Session>, maxSessions: int, s: Session)
    requires StoreInvariant(keys, sessions, maxSessions)
    requires KeyOf(s) in sessions || |sessions| < maxSessions
    ensures StoreInvariant(
      if KeyOf(s) in sessions then keys else keys + [KeyOf(s)], sessions[KeyOf(s) := s], maxSessions)
  {
    var k := KeyOf(s);
    if k !in sessions {
      DistinctSnoc(keys, k);
    }
  }

  class InMemorySessionStorage {
    /** The dictionary's keys, in insertion order. */
    var keys: seq<string>
    var sessions: map<string, Session>
    const maxSessions: int

    ghost predicate Valid()
      reads this
    {
      StoreInvariant(keys, sessions, maxSessions)
    }

    /** The part of `Valid` that reading the entries needs. */
    ghost predicate KeysStored()
      reads this
    {
      forall k :: k in keys ==> k in sessions
    }

    constructor(maxSessions: int)
      ensures Valid() && this.maxSessions == maxSessions
      ensures keys == [] && sessions == map[]
    {
      keys := [];
      sessions := map[];
      this.maxSessions := maxSessions;
    }

    /** `get`: the session stored for this id and product, if any. */
    function Get(sessionId: string, product: ProductType): (r: Option<Session>)
      reads this
      ensures r.Some? <==> MakeKey(sessionId, product) in sessions
      ensures r.Some? ==> r.value == sessions[MakeKey(sessionId, product)]
      ensures Valid() && r.Some? ==> r.value.sessionId == sessionId && r.value.product == product
    {
      var key := MakeKey(sessionId, product);
      if key in sessions then
        var s := sessions[key];
        KeyInjective(sessionId, product, s.sessionId, s.product);
        Some(s)
      else None
    }

    function Entries(): (es: seq<Entry>)
      reads this, sessions.Values
      requires KeysStored()
      ensures |es| == |keys|
    {
      EntriesOf(keys, sessions)
    }

    /** The dictionary position of the session `save` evicts. */
    method OldestIndex() returns (index: nat)
      requires KeysStored() && |keys| > 0
      ensures index == FirstMinIndex(Entries())
    {
      ghost var es := Entries();
      index := 0;
      var i := 1;
      while i < |keys|
        invariant 1 <= i <= |keys| && index < i
        invariant index == FirstMinIndex(es[..i])
      {
        FirstMinIndexSnoc(es, i);
        EntriesOfAt(keys, sessions, i);
        EntriesOfAt(keys, sessions, index);
        if sessions[keys[i]].updatedAt < sessions[keys[index]].updatedAt {
          index := i;
        }
        i := i + 1;
      }
      assert es[..i] == es;
    }

    /** The eviction step of `save`: removes the first least recently updated session. */
    method EvictOldest() returns (victim: string)
      requires Valid() && |keys| > 0
      modifies this
      ensures Valid()
      ensures victim in old(sessions)
      ensures victim == old(Entries())[FirstMinIndex(old(Entries()))].key
      ensures keys == Without(old(keys), victim)
      ensures sessions == old(sessions) - {victim}
      ensures |sessions| == |old(sessions)| - 1
    {
      ghost var es := Entries();
      var index := OldestIndex();
      victim := keys[index];
      EntriesOfAt(keys, sessions, index);
      assert victim == es[FirstMinIndex(es)].key;
      RemoveKeepsInvariant(keys, sessions, maxSessions, victim);
      var remainingKeys := Without(keys, victim);
      var remaining := sessions - {victim};
      keys, sessions := remainingKeys, remaining;
    }

    /** The assignment `self._sessions[key] = session`, once there is room or the key is present. */
    method Put(session: Session)
      requires Valid() && (KeyOf(session) in sessions || |sessions| < maxSessions)
      modifies this
      ensures Valid()
      ensures sessions == old(sessions)[KeyOf(session) := session]
      ensures keys == if KeyOf(session) in old(sessions) then old(keys) else old(keys) + [KeyOf(session)]
    {
      var key := KeyOf(session);
      InsertKeepsInvariant(keys, sessions, maxSessions, session);
      if key !in sessions {
        keys := keys + [key];
      }
      sessions := sessions[key := session];
    }

    /**
     * `save`: an existing key is overwritten in place; a new key at capacity
     * first evicts the least recently updated session (the first such in
     * dictionary order); the new key then goes last. When the store is at
     * capacity and empty, `min` raises and nothing is saved.
     */
    method Save(session: Session) returns (stored: bool, ghost evicted: Option<string>)
      requires Valid()
      modifies this
      ensures Valid()
      ensures stored <==> KeyOf(session) in old(sessions) || |old(sessions)| < maxSessions || |old(sessions)| > 0
      ensures !stored ==> keys == old(keys) && sessions == old(sessions)
      ensures evicted.Some? <==> stored && KeyOf(session) !in old(sessions) && |old(sessions)| >= maxSessions
      ensures stored && evicted.None? ==> sessions == old(sessions)[KeyOf(session) := session]
      ensures stored && evicted.None? ==>
        keys == if KeyOf(session) in old(sessions) then old(keys) else old(keys) + [KeyOf(session)]
      ensures evicted.Some? ==> evicted.value == old(Entries())[FirstMinIndex(old(Entries()))].key
      ensures evicted.Some? ==> evicted.value != KeyOf(session)
      ensures evicted.Some? ==> keys == Without(old(keys), evicted.value) + [KeyOf(session)]
      ensures evicted.Some? ==> sessions == (old(sessions) - {evicted.value})[KeyOf(session) := session]
      ensures Get(session.sessionId, session.product) == if stored then Some(session) else None
      ensures stored && KeyOf(session) in old(sessions) ==> |sessions| == |old(sessions)|
      ensures session.updatedAt == old(session.updatedAt) && session.messages == old(session.messages)
    {
      var key := MakeKey(session.sessionId, session.product);
      evicted := None;
      if key !in sessions && |sessions| >= maxSessions {
        if |keys| == 0 {
          stored := false;
          return;
        }
        var oldest := EvictOldest();
        evicted := Some(oldest);
      }
      Put(session);
      stored := true;
    }

    /** `delete`: reports whether the key was present, and removes it. */
    method Delete(sessionId: string, product: ProductType) returns (deleted: bool)
      requires Valid()
      modifies this
      ensures Valid()
      ensures deleted <==> MakeKey(sessionId, product) in old(sessions)
      ensures sessions == old(sessions) - {MakeKey(sessionId, product)}
      ensures keys == Without(old(keys), MakeKey(sessionId, product))
      ensures Get(sessionId, product) == None
    {
      var key := MakeKey(sessionId, product);
      if key in sessions {
        RemoveKeepsInvariant(keys, sessions, maxSessions, key);
        keys := Without(keys, key);
        sessions := sessions - {key};
        deleted := true;
      } else {
        assert sessions - {key} == sessions;
        deleted := false;
      }
    }

    /** `list_sessions`: filter by product, newest first, then `[:limit]`. */
    function ListSessions(product: Option<ProductType>, limit: int): (r: seq<Session>)
      reads this, sessions.Values
      requires KeysStored()
      ensures limit >= 0 ==> |r| <= limit
      ensures |r| <= |keys|
    {
      ListedOrdered(Entries(), product, limit);
      var listed := SlicePrefix(SortByRecency(OfProduct(Entries(), product)), limit);
      seq(|listed|, i requires 0 <= i < |listed| => listed[i].session)
    }

    lemma EntryFacts(x: Entry)
      requires KeysStored() && x in Entries()
      ensures x.key in sessions && x.session == sessions[x.key] && x.stamp == x.session.updatedAt
    {
      var i :| 0 <= i < |Entries()| && Entries()[i] == x;
      EntriesOfAt(keys, sessions, i);
    }

    /**
     * Every listed session is stored and of the requested product, the list
     * is newest first; it holds the `limit` newest matching sessions (all
     * but the `-limit` oldest when `limit` is negative), and a matching
     * session left out is no newer than any listed one.
     */
    lemma ListSessionsFacts(product: Option<ProductType>, limit: int)
      requires KeysStored()
      ensures var r := ListSessions(product, limit);
        && (forall i :: 0 <= i < |r| ==>
              r[i] in sessions.Values && (product.None? || r[i].product == product.value))
        && (forall i, j :: 0 <= i < j < |r| ==> r[i].updatedAt >= r[j].updatedAt)
        && (limit >= 0 ==> |r| <= limit)
        && |r| <= |keys|
        && var n := |OfProduct(Entries(), product)|;
           && (limit >= 0 ==> |r| == if limit < n then limit else n)
           && (limit < 0 ==> |r| == if n + limit > 0 then n + limit else 0)
    {
      var listed := SlicePrefix(SortByRecency(OfProduct(Entries(), product)), limit);
      ListedOfProduct(Entries(), product, limit);
      ListedOrdered(Entries(), product, limit);
      var r := ListSessions(product, limit);
      forall i | 0 <= i < |r|
        ensures r[i] in sessions.Values && (product.None? || r[i].product == product.value)
        ensures r[i].updatedAt == listed[i].stamp
      {
        EntryFacts(listed[i]);
      }
    }

    /** Only the oldest matching sessions are cut: one left out is no newer than any listed. */
    lemma ListSessionsKeepsNewest(product: Option<ProductType>, limit: int)
      requires KeysStored()
      ensures var r := ListSessions(product, limit);
        forall k, i ::
          k in keys && (product.None? || sessions[k].product == product.value) && sessions[k] !in r && 0 <= i < |r|
          ==> sessions[k].updatedAt <= r[i].updatedAt
    {
      var es := Entries();
      var listed := SlicePrefix(SortByRecency(OfProduct(es, product)), limit);
      var r := ListSessions(product, limit);
      assert |r| == |listed| && forall i :: 0 <= i < |r| ==> r[i] == listed[i].session;
      forall p | 0 <= p < |es|
        ensures es[p] == Entry(keys[p], sessions[keys[p]], sessions[keys[p]].updatedAt)
      {
        EntriesOfAt(keys, sessions, p);
      }
      forall k, i | k in keys && (product.None? || sessions[k].product == product.value) && sessions[k] !in r && 0 <= i < |r|
        ensures sessions[k].updatedAt <= r[i].updatedAt
      {
        var j :| 0 <= j < |keys| && keys[j] == k;
        assert es[j].session == sessions[k];
        forall m | 0 <= m < |listed|
          ensures listed[m].session != es[j].session
        {
          assert r[m] in r;
        }
        ListedSessionsNewest(es, product, limit, j, i);
      }
    }

    /** When `limit` covers the store, every stored session of the product is listed. */
    lemma ListSessionsComplete(product: Option<ProductType>, limit: int, k: string)
      requires KeysStored() && limit >= |keys|
      requires k in keys && (product.None? || sessions[k].product == product.value)
      ensures sessions[k] in ListSessions(product, limit)
    {
      var es := Entries();
      var i :| 0 <= i < |keys| && keys[i] == k;
      EntriesOfAt(keys, sessions, i);
      ListedWhenLimitCovers(es, product, limit, i);
      var listed := SlicePrefix(SortByRecency(OfProduct(es, product)), limit);
      var j :| 0 <= j < |listed| && listed[j] == es[i];
      assert ListSessions(product, limit)[j] == sessions[k];
    }
  }

  /** The entries are a function of the store's fields and of its sessions' stamps, and of nothing else. */
  twostate lemma EntriesUnchanged(store: InMemorySessionStorage)
    requires old(store.KeysStored()) && unchanged(store)
    requires forall x :: x in old(store.sessions.Values) ==> unchanged(x)
    ensures store.KeysStored() && store.Entries() == old(store.Entries())
  {
  }
}
