/**
 * `fetchMessagesByChatId`: a query on a chat's message subcollection ordered by `createdAt`
 * descending, limited to `queryLimit` documents and, given a cursor message, started after the
 * cursor's `createdAt`; the first fetched message is then removed with `shift()`.
 */
module MessagePages {
  import opened Wrappers
  import opened Documents

  /** Ordered by `createdAt`, newest first. */
  ghost predicate NewestFirst(s: seq<Message>)
  {
    forall i, j :: 0 <= i < j < |s| ==> s[i].createdAt >= s[j].createdAt
  }

  /** No two documents share a message id, as in a subcollection keyed by id. */
  ghost predicate UniqueIds(s: seq<Message>)
  {
    forall i, j :: 0 <= i < j < |s| ==> s[i].id != s[j].id
  }

  lemma PrependNewest(x: Message, rest: seq<Message>)
    requires NewestFirst(rest)
    requires forall y :: y in rest ==> y.createdAt <= x.createdAt
    ensures NewestFirst([x] + rest)
  {
    var r := [x] + rest;
    forall i, j | 0 <= i < j < |r| ensures r[i].createdAt >= r[j].createdAt {
      assert r[j] == rest[j - 1];
      if i > 0 {
        assert r[i] == rest[i - 1];
      }
    }
  }

  function InsertByTime(m: Message, s: seq<Message>): (r: seq<Message>)
    requires NewestFirst(s)
    ensures NewestFirst(r)
    ensures multiset(r) == multiset(s) + multiset{m}
  {
    if s == [] || m.createdAt >= s[0].createdAt then
      PrependNewest(m, s);
      [m] + s
    else
      var rest := InsertByTime(m, s[1..]);
      assert s == [s[0]] + s[1..];
      assert forall y :: y in rest ==> y == m || y in s[1..] by {
        forall y | y in rest ensures y == m || y in s[1..] {
          assert y in multiset(rest);
        }
      }
      PrependNewest(s[0], rest);
      [s[0]] + rest
  }

  /** Ordering by `createdAt` descending: the documents rearranged newest first. */
  function OrderByCreatedAtDesc(s: seq<Message>): (r: seq<Message>)
    ensures NewestFirst(r)
    ensures multiset(r) == multiset(s)
  {
    if s == [] then []
    else
      assert s == [s[0]] + s[1..];
      InsertByTime(s[0], OrderByCreatedAtDesc(s[1..]))
  }

  /** Whether a document lies past the cursor: strictly older than its `createdAt`. */
  predicate PastCursor(m: Message, after: Option<nat>)
  {
    after.None? || m.createdAt < after.value
  }

  /** Starting after a `createdAt` value in descending order: only documents older than it. */
  function StartAfter(s: seq<Message>, after: Option<nat>): (r: seq<Message>)
    ensures forall x :: x in r <==> x in s && PastCursor(x, after)
    ensures multiset(r) <= multiset(s)
  {
    if s == [] then []
    else
      assert s == [s[0]] + s[1..];
      if PastCursor(s[0], after) then [s[0]] + StartAfter(s[1..], after)
      else StartAfter(s[1..], after)
  }

  /** Each message past the cursor is kept as many times as it occurs, and no other is kept. */
  lemma {:induction false} StartAfterCounts(s: seq<Message>, after: Option<nat>, x: Message)
    ensures multiset(StartAfter(s, after))[x] == if PastCursor(x, after) then multiset(s)[x] else 0
  {
    if s != [] {
      assert s == [s[0]] + s[1..];
      StartAfterCounts(s[1..], after, x);
    }
  }

  /** The query of `fetchMessagesByChatId`; `after` is the cursor's `createdAt`, if any. */
  datatype MessageQuery = MessageQuery(limit: nat, after: Option<nat>)

  /** The documents the store returns for `q` over the subcollection `docs`. */
  function RunQuery(docs: seq<Message>, q: MessageQuery): (r: seq<Message>)
    ensures NewestFirst(r) && |r| <= q.limit
    ensures multiset(r) <= multiset(docs)
    ensures forall x :: x in r ==> x in docs && PastCursor(x, q.after)
  {
    var filtered := StartAfter(docs, q.after);
    var ordered := OrderByCreatedAtDesc(filtered);
    var r := if |ordered| <= q.limit then ordered else ordered[..q.limit];
    PrefixMultiset(ordered, |r|);
    assert r == ordered[..|r|];
    assert forall x :: x in r ==> x in filtered by {
      forall x | x in r ensures x in filtered {
        assert x in multiset(r);
      }
    }
    r
  }

  lemma PrefixMultiset(s: seq<Message>, k: nat)
    requires k <= |s|
    ensures multiset(s[..k]) <= multiset(s)
    ensures NewestFirst(s) ==> NewestFirst(s[..k])
  {
    assert s == s[..k] + s[k..];
  }

  /**
   * The query leaves a matching document out only when it already has `limit` documents,
   * none of them older than the one left out.
   */
  lemma QueryKeepsNewest(docs: seq<Message>, q: MessageQuery, x: Message)
    requires x in docs && PastCursor(x, q.after)
    requires x !in RunQuery(docs, q)
    ensures |RunQuery(docs, q)| == q.limit
    ensures forall y :: y in RunQuery(docs, q) ==> y.createdAt >= x.createdAt
  {
    var filtered := StartAfter(docs, q.after);
    var ordered := OrderByCreatedAtDesc(filtered);
    assert x in multiset(ordered);
    var j :| 0 <= j < |ordered| && ordered[j] == x;
    assert q.limit < |ordered|;
    assert RunQuery(docs, q) == ordered[..q.limit];
    assert q.limit <= j;
    forall y | y in RunQuery(docs, q) ensures y.createdAt >= x.createdAt {
      var i :| 0 <= i < q.limit && ordered[i] == y;
    }
  }

  /** The cursor is the `createdAt` of `lastMessage`; there is none when `lastMessage` is null. */
  function CursorOf(lastMessage: Option<Message>): Option<nat>
  {
    if lastMessage.Some? then Some(lastMessage.value.createdAt) else None
  }

  /** What `fetchMessagesByChatId` returns: the fetched documents after `shift()`. */
  function FetchedPage(docs: seq<Message>, queryLimit: nat, lastMessage: Option<Message>)
    : (page: seq<Message>)
    ensures NewestFirst(page)
    ensures page == [] || |page| < queryLimit
    ensures forall x :: x in page ==> x in docs
    ensures lastMessage.Some? ==>
      forall x :: x in page ==> x.createdAt < lastMessage.value.createdAt
    ensures var fetched := RunQuery(docs, MessageQuery(queryLimit, CursorOf(lastMessage)));
      fetched != [] ==> page == fetched[1..]
  {
    var fetched := RunQuery(docs, MessageQuery(queryLimit, CursorOf(lastMessage)));
    if fetched == [] then [] else fetched[1..]
  }

  /** `limit(n)` rejects a limit that is not positive. */
  datatype FetchError = InvalidLimit

  /**
   * `fetchMessagesByChatId` for one chat, with `subcollection` the
   * documents of the chat's message subcollection.
   */
  method FetchMessagesByChatId(subcollection: seq<Message>, queryLimit: int,
                               lastMessage: Option<Message>)
    returns (r: Result<seq<Message>, FetchError>)
    ensures queryLimit < 1 <==> r == Failure(InvalidLimit)
    ensures queryLimit >= 1 ==> r == Success(FetchedPage(subcollection, queryLimit, lastMessage))
    ensures r.Success? ==> NewestFirst(r.value) && |r.value| <= queryLimit - 1
    ensures r.Success? && lastMessage.Some? ==>
      forall x :: x in r.value ==> x.createdAt < lastMessage.value.createdAt
  {
    if queryLimit < 1 {
      return Failure(InvalidLimit);
    }
    var q: MessageQuery;
    if lastMessage.Some? {
      q := MessageQuery(queryLimit, Some(lastMessage.value.createdAt));
    } else {
      q := MessageQuery(queryLimit, None);
    }
    var messages := RunQuery(subcollection, q);
    if |messages| > 0 {
      messages := messages[1..];  // drop the first fetched message
    }
    r := Success(messages);
  }

  lemma {:induction false} UniqueIdsNoRepeats(s: seq<Message>, x: Message)
    requires UniqueIds(s)
    ensures multiset(s)[x] <= 1
  {
    if s != [] {
      assert s == [s[0]] + s[1..];
      UniqueIdsNoRepeats(s[1..], x);
      if s[0] == x {
        assert x !in s[1..];
      }
    }
  }

  /**
   * The newest message the query matches is always dropped: it is not on the page, and every
   * message the query could match is at most as new as it.
   */
  lemma NewestMatchIsDropped(docs: seq<Message>, queryLimit: nat, lastMessage: Option<Message>)
    requires UniqueIds(docs)
    ensures var fetched := RunQuery(docs, MessageQuery(queryLimit, CursorOf(lastMessage)));
      fetched != [] ==>
        && fetched[0] !in FetchedPage(docs, queryLimit, lastMessage)
        && forall x :: x in docs && PastCursor(x, CursorOf(lastMessage)) ==>
             x.createdAt <= fetched[0].createdAt
  {
    var q := MessageQuery(queryLimit, CursorOf(lastMessage));
    var fetched := RunQuery(docs, q);
    if fetched != [] {
      UniqueIdsNoRepeats(docs, fetched[0]);
      assert fetched == [fetched[0]] + fetched[1..];
      assert multiset(fetched)[fetched[0]] <= 1;
      forall x | x in docs && PastCursor(x, q.after) ensures x.createdAt <= fetched[0].createdAt {
        if x !in fetched {
          QueryKeepsNewest(docs, q, x);
        }
      }
    }
  }

  lemma DifferentMessagesHaveDifferentIds(docs: seq<Message>, x: Message, y: Message)
    requires UniqueIds(docs) && x in docs && y in docs && x != y
    ensures x.id != y.id
  {
    var a :| 0 <= a < |docs| && docs[a] == x;
    var b :| 0 <= b < |docs| && docs[b] == y;
    assert a != b;
  }

  /**
   * A page fetched with the last message of the previous page as its cursor shares no message
   * id with that previous page.
   */
  lemma PagesDoNotOverlap(docs: seq<Message>, limit1: nat, cursor1: Option<Message>, limit2: nat)
    requires UniqueIds(docs)
    ensures var page1 := FetchedPage(docs, limit1, cursor1);
      page1 != [] ==>
        var page2 := FetchedPage(docs, limit2, Some(page1[|page1| - 1]));
        forall x, y :: x in page1 && y in page2 ==> x.id != y.id
  {
    var page1 := FetchedPage(docs, limit1, cursor1);
    if page1 != [] {
      var page2 := FetchedPage(docs, limit2, Some(page1[|page1| - 1]));
      OlderPageIsDisjoint(docs, page1, page2);
    }
  }

  lemma OlderPageIsDisjoint(docs: seq<Message>, page1: seq<Message>, page2: seq<Message>)
    requires UniqueIds(docs) && NewestFirst(page1) && page1 != []
    requires forall x :: x in page1 ==> x in docs
    requires forall y :: y in page2 ==> y in docs && y.createdAt < page1[|page1| - 1].createdAt
    ensures forall x, y :: x in page1 && y in page2 ==> x.id != y.id
  {
    var last := page1[|page1| - 1];
    forall x, y | x in page1 && y in page2 ensures x.id != y.id {
      var i :| 0 <= i < |page1| && page1[i] == x;
      assert x.createdAt >= last.createdAt by {
        if i < |page1| - 1 {
          assert NewestFirst(page1);
        }
      }
      DifferentMessagesHaveDifferentIds(docs, x, y);
    }
  }
}
