/** The cursor scans of the Redis connector: SCAN over keys and HSCAN over the fields of a hash. */
module RedisScan {
  import opened Wrappers

  const DEFAULT_QUERY_LIMIT := 1000

  /** ClampLimit: a positive request, capped by the configured limit. */
  function ClampLimit(requested: int, maxLimit: int): (r: Result<nat>)
    ensures r.Ok? <==> requested > 0
    ensures r.Ok? ==> 1 <= r.value <= requested && (maxLimit > 0 ==> r.value <= maxLimit)
    ensures r.Ok? && r.value < requested ==> r.value == if maxLimit > 0 then maxLimit else DEFAULT_QUERY_LIMIT
  {
    if requested <= 0 then Err
    else
      var most := if maxLimit <= 0 then DEFAULT_QUERY_LIMIT else maxLimit;
      if requested > most then Ok(most) else Ok(requested)
  }

  /** What the server answers to one SCAN call: items and the next cursor, or an error. */
  datatype Reply<T> = Batch(items: seq<T>, next: nat) | Failure

  datatype Page<T> = Page(cursor: nat, items: seq<T>, truncated: bool)

  // ---------- What a scan should return ----------

  function BatchOf<T>(r: Reply<T>): seq<T>
  {
    if r.Batch? then r.items else []
  }

  /** The items of the first `n` replies, in order. */
  function Items<T>(replies: seq<Reply<T>>, n: nat): seq<T>
    requires n <= |replies|
  {
    if n == 0 then [] else Items(replies, n - 1) + BatchOf(replies[n - 1])
  }

  /** All items of the server. */
  function AllItems<T>(replies: seq<Reply<T>>): seq<T>
  {
    Items(replies, |replies|)
  }

  /** After the first `n` replies the scan stops: an error, the end of the cursor, or enough items. */
  predicate StopsAt<T>(replies: seq<Reply<T>>, n: nat, limit: nat)
    requires 0 < n <= |replies|
  {
    replies[n - 1].Failure? || replies[n - 1].next == 0 || |Items(replies, n)| >= limit
  }

  /** The scan goes on after each of the first `n` replies. */
  ghost predicate GoesOn<T>(replies: seq<Reply<T>>, n: nat, limit: nat)
  {
    n <= |replies| && forall m | 0 < m <= n :: !StopsAt(replies, m, limit)
  }

  /** The scan reads exactly the first `n` replies. */
  ghost predicate Reads<T>(replies: seq<Reply<T>>, n: nat, limit: nat)
  {
    0 < n <= |replies| && StopsAt(replies, n, limit) && GoesOn(replies, n - 1, limit)
  }

  function Kept<T>(all: seq<T>, limit: nat): seq<T>
  {
    if |all| <= limit then all else all[..limit]
  }

  function Dropped<T>(all: seq<T>, limit: nat): seq<T>
  {
    if |all| <= limit then [] else all[limit..]
  }

  /** The page of a scan that read the first `n` replies. */
  ghost predicate IsPage<T>(replies: seq<Reply<T>>, n: nat, limit: nat, page: Page<T>)
  {
    && 0 < n <= |replies| && replies[n - 1].Batch?
    && page.items == Kept(Items(replies, n), limit)
    && page.cursor == replies[n - 1].next
    && (page.truncated <==> replies[n - 1].next != 0 || Dropped(Items(replies, n), limit) != [])
  }

  /**
   * Conservation: what a page holds and what was dropped are together everything the server sent; a page
   * that is not truncated is complete, and a truncated one is full.
   */
  lemma PageConserves<T>(replies: seq<Reply<T>>, n: nat, limit: nat, page: Page<T>)
    requires limit > 0 && Reads(replies, n, limit) && IsPage(replies, n, limit, page)
    ensures page.items + Dropped(Items(replies, n), limit) == Items(replies, n)
    ensures |page.items| <= limit
    ensures page.truncated ==> |page.items| == limit
    ensures !page.truncated ==> page.cursor == 0 && page.items == Items(replies, n)
  {
  }

  // ---------- What the caller can tell ----------

  /** A scan that reads `n` of the replies returns the page. */
  ghost predicate Gives<T>(replies: seq<Reply<T>>, n: nat, limit: nat, page: Page<T>)
  {
    Reads(replies, n, limit) && IsPage(replies, n, limit, page)
  }

  ghost predicate IsPossible<T(!new)>(limit: nat, page: Page<T>)
  {
    exists replies, n :: Gives(replies, n, limit, page)
  }

  /** A server with one batch: the page itself, with one more item or without. */
  lemma OneBatchGives<T>(limit: nat, page: Page<T>, extra: seq<T>) returns (replies: seq<Reply<T>>)
    requires limit > 0 && |page.items| == limit
    requires page.truncated <==> page.cursor != 0 || extra != []
    ensures Gives(replies, 1, limit, page) && Dropped(Items(replies, 1), limit) == extra
  {
    replies := [Batch(page.items + extra, page.cursor)];
    assert Items(replies, 0) == [];
    assert Items(replies, 1) == page.items + extra;
  }

  /** A page that is not truncated says that nothing was dropped, and no other page does. */
  lemma NothingDroppedExactly<T(!new)>(limit: nat, page: Page<T>)
    requires limit > 0 && IsPossible(limit, page)
    ensures (forall replies, n | Gives(replies, n, limit, page) :: Dropped(Items(replies, n), limit) == []) <==> !page.truncated
  {
    var replies, n :| Gives(replies, n, limit, page);
    PageConserves(replies, n, limit, page);
    if page.truncated {
      var others := OneBatchGives(limit, page, [page.items[0]]);
    }
  }

  /** A truncated page with cursor 0 says that something was dropped, and no other page does. */
  lemma SomethingDroppedExactly<T(!new)>(limit: nat, page: Page<T>)
    requires limit > 0 && IsPossible(limit, page)
    ensures (forall replies, n | Gives(replies, n, limit, page) :: Dropped(Items(replies, n), limit) != [])
       <==> page.truncated && page.cursor == 0
  {
    var replies, n :| Gives(replies, n, limit, page);
    PageConserves(replies, n, limit, page);
    if page.truncated && page.cursor != 0 {
      var others := OneBatchGives(limit, page, []);
    }
  }

  /** The server's replies come to an end. */
  ghost predicate Ends<T>(replies: seq<Reply<T>>)
  {
    exists i | 0 <= i < |replies| :: replies[i].Failure? || replies[i].next == 0
  }

  /** The cursor to ask with after `n` replies: the requested one, then the one each reply gave. */
  function CursorAt<T>(start: nat, replies: seq<Reply<T>>, n: nat): nat
    requires n <= |replies|
  {
    if n == 0 then start else if replies[n - 1].Batch? then replies[n - 1].next else 0
  }

  /** The cursors of the first `n` calls. */
  function Cursors<T>(start: nat, replies: seq<Reply<T>>, n: nat): seq<nat>
    requires n <= |replies|
  {
    if n == 0 then [] else Cursors(start, replies, n - 1) + [CursorAt(start, replies, n - 1)]
  }

  /** The first call asks with the requested cursor, and each other one with the cursor of the reply before it. */
  lemma {:induction false} CursorsMean<T>(start: nat, replies: seq<Reply<T>>, n: nat)
    requires n <= |replies|
    ensures |Cursors(start, replies, n)| == n
    ensures n > 0 ==> Cursors(start, replies, n)[0] == start
    ensures forall i | 0 < i < n && replies[i - 1].Batch? :: Cursors(start, replies, n)[i] == replies[i - 1].next
  {
    if n > 0 {
      CursorsMean(start, replies, n - 1);
    }
  }

  // ---------- The loops ----------

  /** The inner loop of SCAN: appends what still fits. */
  method TakeBatch<T>(keys: seq<T>, batch: seq<T>, limit: nat) returns (taken: seq<T>, truncated: bool)
    requires |keys| <= limit
    ensures taken == Kept(keys + batch, limit)
    ensures truncated <==> Dropped(keys + batch, limit) != []
  {
    taken, truncated := keys, false;
    for i := 0 to |batch|
      invariant !truncated && |taken| <= limit
      invariant taken == keys + batch[..i]
    {
      if |taken| >= limit {
        truncated := true;
        break;
      }
      taken := taken + [batch[i]];
    }
    assert truncated ==> taken == (keys + batch)[..limit];
  }

  /** What a batch leads to: the page is there, or the scan goes on. */
  lemma AfterBatch<T>(replies: seq<Reply<T>>, n: nat, limit: nat, taken: seq<T>, overflow: bool)
    requires GoesOn(replies, n, limit) && n < |replies| && replies[n].Batch?
    requires taken == Kept(Items(replies, n) + replies[n].items, limit)
    requires overflow <==> Dropped(Items(replies, n) + replies[n].items, limit) != []
    ensures var next := replies[n].next;
            if overflow || next == 0 || |taken| >= limit
            then Reads(replies, n + 1, limit)
                 && IsPage(replies, n + 1, limit, Page(next, taken, overflow || (|taken| >= limit && next != 0)))
            else GoesOn(replies, n + 1, limit) && taken == Items(replies, n + 1)
  {
  }

  /** One call of the client, and the items of its batch that still fit. */
  method FetchBatch<T>(keys: seq<T>, replies: seq<Reply<T>>, n: nat, limit: nat)
    returns (r: Result<nat>, taken: seq<T>, truncated: bool)
    requires n < |replies| && |keys| <= limit
    ensures r == if replies[n].Failure? then Err else Ok(replies[n].next)
    ensures r.Ok? ==> taken == Kept(keys + replies[n].items, limit)
    ensures r.Ok? ==> (truncated <==> Dropped(keys + replies[n].items, limit) != [])
  {
    match replies[n] {
      case Failure => return Err, keys, false;
      case Batch(items, next) =>
        taken, truncated := TakeBatch(keys, items, limit);
        r := Ok(next);
    }
  }

  /** SCAN, asking until the cursor ends or the page is full; what does not fit is dropped. */
  method Scan<T>(replies: seq<Reply<T>>, start: nat, limit: nat)
    returns (r: Result<Page<T>>, n: nat, ghost asked: seq<nat>)
    requires limit > 0 && Ends(replies)
    ensures Reads(replies, n, limit) && asked == Cursors(start, replies, n)
    ensures r.Err? <==> replies[n - 1].Failure?
    ensures r.Ok? ==> IsPage(replies, n, limit, r.value)
  {
    var keys: seq<T> := [];
    var cursor := start;
    var truncated := false;
    n, asked := 0, [];
    ghost var end :| 0 <= end < |replies| && (replies[end].Failure? || replies[end].next == 0);
    while true
      invariant n <= end && GoesOn(replies, n, limit)
      invariant keys == Items(replies, n) && |keys| < limit
      invariant asked == Cursors(start, replies, n) && cursor == CursorAt(start, replies, n)
      invariant !truncated
      decreases end - n
    {
      asked := asked + [cursor];
      var next;
      next, keys, truncated := FetchBatch(keys, replies, n, limit);
      if next.Err? {
        return Err, n + 1, asked;
      }
      AfterBatch(replies, n, limit, keys, truncated);
      cursor := next.value;
      n := n + 1;
      if truncated || cursor == 0 || |keys| >= limit {
        if |keys| >= limit && cursor != 0 {
          truncated := true;
        }
        break;
      }
    }
    r := Ok(Page(cursor, keys, truncated));
  }

  // ---------- Fields of a hash ----------

  /** A flat list of fields and values, taken two by two into entries; an odd one at the end is ignored. */
  function Pairs<S, F>(flat: seq<S>, entry: (S, S) -> F): seq<F>
  {
    if |flat| < 2 then [] else [entry(flat[0], flat[1])] + Pairs(flat[2..], entry)
  }

  /** Entry `i` is made of the field at 2i and the value after it, for as many as there are whole pairs. */
  lemma {:induction false} PairsMeans<S, F>(flat: seq<S>, entry: (S, S) -> F)
    ensures |Pairs(flat, entry)| == |flat| / 2
    ensures forall i | 0 <= i < |flat| / 2 :: Pairs(flat, entry)[i] == entry(flat[2 * i], flat[2 * i + 1])
  {
    if |flat| >= 2 {
      PairsMeans(flat[2..], entry);
      forall i | 0 < i < |flat| / 2 ensures Pairs(flat, entry)[i] == entry(flat[2 * i], flat[2 * i + 1]) {
        assert Pairs(flat, entry)[i] == Pairs(flat[2..], entry)[i - 1];
      }
    }
  }

  function PairReply<S, F>(r: Reply<S>, entry: (S, S) -> F): Reply<F>
  {
    match r
    case Batch(flat, next) => Batch(Pairs(flat, entry), next)
    case Failure => Failure
  }

  /** The same replies, with entries made of fields and values for items. */
  ghost predicate ArePaired<S, F>(replies: seq<Reply<S>>, paired: seq<Reply<F>>, entry: (S, S) -> F)
  {
    |paired| == |replies| && forall i {:trigger replies[i]} | 0 <= i < |replies| :: paired[i] == PairReply(replies[i], entry)
  }

  /** The inner loop of HSCAN: appends the pairs that still fit. */
  method TakePairs<S, F>(fields: seq<F>, flat: seq<S>, limit: nat, entry: (S, S) -> F)
    returns (taken: seq<F>, truncated: bool)
    requires |fields| <= limit
    ensures taken == Kept(fields + Pairs(flat, entry), limit)
    ensures truncated <==> Dropped(fields + Pairs(flat, entry), limit) != []
  {
    ghost var all := fields + Pairs(flat, entry);
    taken, truncated := fields, false;
    var i := 0;
    while i + 1 < |flat|
      invariant i <= |flat|
      invariant !truncated && |taken| <= limit
      invariant all == taken + Pairs(flat[i..], entry)
    {
      if |taken| >= limit {
        truncated := true;
        break;
      }
      assert flat[i..][2..] == flat[i + 2..];
      taken := taken + [entry(flat[i], flat[i + 1])];
      i := i + 2;
    }
    assert truncated ==> taken == all[..limit];
  }

  lemma PairsEnd<S, F>(replies: seq<Reply<S>>, paired: seq<Reply<F>>, entry: (S, S) -> F)
    requires Ends(replies) && ArePaired(replies, paired, entry)
    ensures Ends(paired)
  {
    var i :| 0 <= i < |replies| && (replies[i].Failure? || replies[i].next == 0);
    assert paired[i] == PairReply(replies[i], entry);
  }

  /** One call of the client, and the pairs of its batch that still fit. */
  method FetchPairs<S, F>(fields: seq<F>, replies: seq<Reply<S>>, n: nat, limit: nat, entry: (S, S) -> F,
                          ghost paired: seq<Reply<F>>)
    returns (r: Result<nat>, taken: seq<F>, truncated: bool)
    requires n < |replies| && ArePaired(replies, paired, entry) && |fields| <= limit
    ensures r == if paired[n].Failure? then Err else Ok(paired[n].next)
    ensures r.Ok? ==> taken == Kept(fields + paired[n].items, limit)
    ensures r.Ok? ==> (truncated <==> Dropped(fields + paired[n].items, limit) != [])
  {
    assert paired[n] == PairReply(replies[n], entry);
    match replies[n] {
      case Failure => return Err, fields, false;
      case Batch(flat, next) =>
        taken, truncated := TakePairs(fields, flat, limit, entry);
        r := Ok(next);
    }
  }

  /** HSCAN is the same scan over the entries that `entry` makes of fields and values. */
  method HScan<S, F>(replies: seq<Reply<S>>, start: nat, limit: nat, entry: (S, S) -> F, ghost paired: seq<Reply<F>>)
    returns (r: Result<Page<F>>, n: nat, ghost asked: seq<nat>)
    requires limit > 0 && Ends(replies) && ArePaired(replies, paired, entry)
    ensures Reads(paired, n, limit) && asked == Cursors(start, paired, n)
    ensures r.Err? <==> paired[n - 1].Failure?
    ensures r.Ok? ==> IsPage(paired, n, limit, r.value)
  {
    var fields: seq<F> := [];
    var cursor := start;
    var truncated := false;
    n, asked := 0, [];
    PairsEnd(replies, paired, entry);
    ghost var end :| 0 <= end < |paired| && (paired[end].Failure? || paired[end].next == 0);
    while true
      invariant n <= end && GoesOn(paired, n, limit)
      invariant fields == Items(paired, n) && |fields| < limit
      invariant asked == Cursors(start, paired, n) && cursor == CursorAt(start, paired, n)
      invariant !truncated
      decreases end - n
    {
      asked := asked + [cursor];
      var next;
      next, fields, truncated := FetchPairs(fields, replies, n, limit, entry, paired);
      if next.Err? {
        return Err, n + 1, asked;
      }
      AfterBatch(paired, n, limit, fields, truncated);
      cursor := next.value;
      n := n + 1;
      if truncated || cursor == 0 || |fields| >= limit {
        if |fields| >= limit && cursor != 0 {
          truncated := true;
        }
        break;
      }
    }
    r := Ok(Page(cursor, fields, truncated));
  }

  // ---------- Resuming at the returned cursor ----------

  /**
   * Calls that together read all replies, each going on where the one before stopped, until a call
   * returns cursor 0. `ns` are the numbers of replies the calls read.
   */
  ghost predicate IsSession<T>(replies: seq<Reply<T>>, ns: seq<nat>, limit: nat)
    decreases |ns|
  {
    && ns != []
    && Reads(replies, ns[0], limit)
    && replies[ns[0] - 1].Batch?
    && if replies[ns[0] - 1].next == 0 then ns[0] == |replies| && |ns| == 1
       else IsSession(replies[ns[0]..], ns[1..], limit)
  }

  /** Everything the calls return. */
  function Returned<T>(replies: seq<Reply<T>>, ns: seq<nat>, limit: nat): seq<T>
    decreases |ns|
  {
    if ns == [] || ns[0] > |replies| then []
    else Kept(Items(replies, ns[0]), limit) + Returned(replies[ns[0]..], ns[1..], limit)
  }

  /** No call drops an item. */
  predicate NoDrops<T>(replies: seq<Reply<T>>, ns: seq<nat>, limit: nat)
    decreases |ns|
  {
    if ns == [] || ns[0] > |replies| then true
    else |Items(replies, ns[0])| <= limit && NoDrops(replies[ns[0]..], ns[1..], limit)
  }

  lemma {:induction false} ItemsSplit<T>(replies: seq<Reply<T>>, k: nat, n: nat)
    requires k <= n <= |replies|
    ensures Items(replies, n) == Items(replies, k) + Items(replies[k..], n - k)
  {
    if n > k {
      ItemsSplit(replies, k, n - 1);
      assert replies[k..][n - k - 1] == replies[n - 1];
    }
  }

  lemma KeptThenRest<T>(all: seq<T>, limit: nat, rest: seq<T>, more: seq<T>)
    requires |rest| <= |more|
    ensures |Kept(all, limit) + rest| <= |all + more|
    ensures Kept(all, limit) + rest == all + more <==> |all| <= limit && rest == more
  {
    if |all| <= limit {
      assert (all + rest)[|all|..] == rest && (all + more)[|all|..] == more;
    } else {
      assert |Kept(all, limit) + rest| < |all + more|;
    }
  }

  /**
   * Resuming at each returned cursor enumerates every item of the server once exactly when no call drops
   * one: dropped items lie before the returned cursor and are never sent again.
   */
  lemma {:induction false} ResumingEnumeratesAll<T>(replies: seq<Reply<T>>, ns: seq<nat>, limit: nat)
    requires IsSession(replies, ns, limit)
    ensures |Returned(replies, ns, limit)| <= |AllItems(replies)|
    ensures Returned(replies, ns, limit) == AllItems(replies) <==> NoDrops(replies, ns, limit)
    decreases |ns|
  {
    var n := ns[0];
    var all, tail := Items(replies, n), replies[n..];
    ItemsSplit(replies, n, |replies|);
    if replies[n - 1].next == 0 {
      assert tail == [] && ns[1..] == [];
      assert Returned(tail, ns[1..], limit) == [] && AllItems(tail) == [];
      assert Returned(replies, ns, limit) == Kept(all, limit);
    } else {
      ResumingEnumeratesAll(tail, ns[1..], limit);
      KeptThenRest(all, limit, Returned(tail, ns[1..], limit), AllItems(tail));
    }
  }

  /** A server whose second batch does not fit the limit: the item dropped from it is lost. */
  lemma ResumingCanLoseItems()
    ensures var replies := [Batch(["a"], 7), Batch(["b", "c"], 0)];
            && IsSession(replies, [2], 2)
            && Returned(replies, [2], 2) == ["a", "b"]
            && AllItems(replies) == ["a", "b", "c"]
  {
    var replies := [Batch(["a"], 7), Batch(["b", "c"], 0)];
    assert Items(replies, 1) == ["a"];
    assert Items(replies, 2) == ["a"] + ["b", "c"];
    assert !StopsAt(replies, 1, 2) && StopsAt(replies, 2, 2);
    assert replies[2..] == [] && [2][1..] == [];
    assert Returned(replies[2..], [2][1..], 2) == [];
  }
}
