/**
 * `fetchUsersByUsername`: an equality query on the `username` field of the users collection,
 * followed by a client-side filter that is meant to drop the caller but compares the
 * documents' `uid` field, a field no user document has.
 */
module UserDirectory {
  import opened Wrappers
  import opened Documents
  import opened ChatStore

  /** A bare `Error` with no message: the reason the query failed is not kept. */
  datatype LookupError = LookupError

  /** The equality filter on `username` over the collection, in the collection's order. */
  function WhereUsername(docs: seq<User>, username: string): (r: seq<User>)
    ensures forall d :: d in r <==> d in docs && d.username == username
    ensures SubsequenceOf(r, docs)
  {
    if docs == [] then []
    else if docs[0].username == username then [docs[0]] + WhereUsername(docs[1..], username)
    else WhereUsername(docs[1..], username)
  }

  /** The client-side caller filter: keeps every document whose `uid` field is not `uid`. */
  function UidFieldIsNot(docs: seq<User>, uid: string): (r: seq<User>)
    ensures forall d :: d in r <==> d in docs && d.uid != Some(uid)
    ensures SubsequenceOf(r, docs)
  {
    if docs == [] then []
    else if docs[0].uid != Some(uid) then [docs[0]] + UidFieldIsNot(docs[1..], uid)
    else UidFieldIsNot(docs[1..], uid)
  }

  /** Each matching document is kept as many times as it occurs, and no other is kept. */
  lemma {:induction false} WhereUsernameCounts(docs: seq<User>, username: string, d: User)
    ensures multiset(WhereUsername(docs, username))[d]
         == if d.username == username then multiset(docs)[d] else 0
  {
    if docs != [] {
      assert docs == [docs[0]] + docs[1..];
      WhereUsernameCounts(docs[1..], username, d);
    }
  }

  lemma {:induction false} UidFieldIsNotCounts(docs: seq<User>, uid: string, d: User)
    ensures multiset(UidFieldIsNot(docs, uid))[d] == if d.uid != Some(uid) then multiset(docs)[d] else 0
  {
    if docs != [] {
      assert docs == [docs[0]] + docs[1..];
      UidFieldIsNotCounts(docs[1..], uid, d);
    }
  }

  /**
   * `fetchUsersByUsername` as written. `collection` is the outcome of reading
   * the users collection: its documents in query order, or the reason the read failed.
   */
  function FetchUsersByUsername(uid: string, username: string,
                                collection: Result<seq<User>, string>): (r: Result<seq<User>, LookupError>)
    ensures collection.Failure? <==> r == Failure(LookupError)
    ensures r.Success? ==>
      && (forall d :: d in r.value <==>
            d in collection.value && d.username == username && d.uid != Some(uid))
      && SubsequenceOf(r.value, collection.value)
  {
    match collection
    case Failure(_) => Failure(LookupError)
    case Success(docs) =>
      var matches := WhereUsername(docs, username);
      var kept := UidFieldIsNot(matches, uid);
      SubsequenceTransitive(kept, matches, docs);
      Success(kept)
  }

  /** Every failure of the query reaches the caller as the same bare error. */
  lemma FailureReasonIsLost(uid: string, username: string, reason1: string, reason2: string)
    ensures FetchUsersByUsername(uid, username, Failure(reason1))
         == FetchUsersByUsername(uid, username, Failure(reason2))
  {
  }

  /**
   * Over documents written by `registerUser` the caller filter removes nothing: the result is
   * every user with that username, in query order, the caller included.
   */
  lemma {:induction false} CallerFilterKeepsEverything(uid: string, docs: seq<User>)
    requires forall d :: d in docs ==> d.uid == None
    ensures UidFieldIsNot(docs, uid) == docs
  {
    if docs != [] {
      CallerFilterKeepsEverything(uid, docs[1..]);
      assert docs == [docs[0]] + docs[1..];
    }
  }

  /** The users of a consistent store carry no `uid` field. */
  lemma StoredUsersHaveNoUidField(db: Db, d: User)
    requires Consistent(db) && d in db.users.Values
    ensures d.uid == None
  {
    var u :| u in db.users && db.users[u] == d;
  }

  /** A caller named "alice" searching for "alice" finds their own document. */
  lemma CallerIsNotExcluded()
    ensures var caller := User("u1", "alice", "alice@example.com", "p", 0, [], None);
      FetchUsersByUsername("u1", "alice", Success([caller])) == Success([caller])
  {
    var caller := User("u1", "alice", "alice@example.com", "p", 0, [], None);
    assert WhereUsername([caller], "alice") == [caller];
    assert UidFieldIsNot([caller], "u1") == [caller];
  }

  /** The caller filter on the `id` field, which is what it is meant to compare. */
  function IdIsNot(docs: seq<User>, uid: string): (r: seq<User>)
    ensures forall d :: d in r <==> d in docs && d.id != uid
    ensures SubsequenceOf(r, docs)
  {
    if docs == [] then []
    else if docs[0].id != uid then [docs[0]] + IdIsNot(docs[1..], uid)
    else IdIsNot(docs[1..], uid)
  }

  lemma {:induction false} IdIsNotCounts(docs: seq<User>, uid: string, d: User)
    ensures multiset(IdIsNot(docs, uid))[d] == if d.id != uid then multiset(docs)[d] else 0
  {
    if docs != [] {
      assert docs == [docs[0]] + docs[1..];
      IdIsNotCounts(docs[1..], uid, d);
    }
  }

  /** The lookup with the caller filter on the field the documents actually carry. */
  function FetchUsersByUsernameExcludingCaller(uid: string, username: string,
                                               collection: Result<seq<User>, string>)
    : (r: Result<seq<User>, LookupError>)
    ensures collection.Failure? <==> r == Failure(LookupError)
    ensures r.Success? ==>
      && (forall d :: d in r.value <==>
            d in collection.value && d.username == username && d.id != uid)
      && SubsequenceOf(r.value, collection.value)
  {
    match collection
    case Failure(_) => Failure(LookupError)
    case Success(docs) =>
      var matches := WhereUsername(docs, username);
      var kept := IdIsNot(matches, uid);
      SubsequenceTransitive(kept, matches, docs);
      Success(kept)
  }

  /** The corrected lookup never returns the caller, whatever their username. */
  lemma CorrectedLookupNeverReturnsCaller(uid: string, username: string,
                                          collection: Result<seq<User>, string>, d: User)
    requires FetchUsersByUsernameExcludingCaller(uid, username, collection).Success?
    requires d in FetchUsersByUsernameExcludingCaller(uid, username, collection).value
    ensures d.id != uid
  {
  }
}
