/**
 * `fetchChatsByUserId`: inside a transaction, read the user document, read every chat its
 * `chatRefs` point to, drop the references whose chat does not exist and return the data of
 * the others, in `chatRefs` order.
 */
module ChatListing {
  import opened Wrappers
  import opened Documents
  import opened ChatIds
  import opened ChatStore

  /** A reference is kept as many times as it occurs, when its chat exists, and never otherwise. */
  lemma {:induction false} ExistingRefsCounts(refs: seq<string>, chats: map<string, Chat>, c: string)
    ensures multiset(ExistingRefs(refs, chats))[c] == if c in chats then multiset(refs)[c] else 0
  {
    if refs != [] {
      assert refs == [refs[0]] + refs[1..];
      ExistingRefsCounts(refs[1..], chats, c);
    }
  }

  /** Reading `chatRefs` of a user document that does not exist throws a `TypeError`. */
  datatype ListError = NoUserDocument

  /** The references whose chat exists, in their original order. */
  function ExistingRefs(refs: seq<string>, chats: map<string, Chat>): (r: seq<string>)
    ensures |r| <= |refs|
    ensures forall c :: c in r <==> c in refs && c in chats
    ensures SubsequenceOf(r, refs)
  {
    if refs == [] then []
    else if refs[0] in chats then [refs[0]] + ExistingRefs(refs[1..], chats)
    else ExistingRefs(refs[1..], chats)
  }

  /** The data of every chat that `refs` points to and that exists, in `refs` order. */
  function ChatSnapshots(refs: seq<string>, chats: map<string, Chat>): (r: seq<Chat>)
    ensures var existing := ExistingRefs(refs, chats);
      |r| == |existing| && forall i :: 0 <= i < |r| ==> r[i] == chats[existing[i]]
  {
    if refs == [] then []
    else if refs[0] in chats then [chats[refs[0]]] + ChatSnapshots(refs[1..], chats)
    else ChatSnapshots(refs[1..], chats)
  }

  /** `fetchChatsByUserId` for the user `uid`, reading the store `db`. */
  function FetchChatsByUserId(db: Db, uid: string): (r: Result<seq<Chat>, ListError>)
    ensures r.Failure? <==> uid !in db.users
    ensures r.Success? ==> |r.value| <= |db.users[uid].chatRefs|
    ensures r.Success? ==> forall ch :: ch in r.value ==> ch in db.chats.Values
    ensures r.Success? ==> r.value == ChatSnapshots(db.users[uid].chatRefs, db.chats)
  {
    if uid !in db.users then Failure(NoUserDocument)
    else
      var refs := db.users[uid].chatRefs;
      var r := ChatSnapshots(refs, db.chats);
      assert forall i :: 0 <= i < |r| ==> ExistingRefs(refs, db.chats)[i] in db.chats;
      Success(r)
  }

  lemma {:induction false} NoDanglingRefs(refs: seq<string>, chats: map<string, Chat>)
    requires forall c :: c in refs ==> c in chats
    ensures ExistingRefs(refs, chats) == refs
  {
    if refs != [] {
      NoDanglingRefs(refs[1..], chats);
      assert refs == [refs[0]] + refs[1..];
    }
  }

  /**
   * In a consistent store no reference dangles: a user's chat list has one chat per
   * reference, in `chatRefs` order, and each chat lists the user as a member.
   */
  lemma ListingOfConsistentStore(db: Db, uid: string)
    requires Consistent(db) && uid in db.users
    ensures var refs := db.users[uid].chatRefs;
      var r := FetchChatsByUserId(db, uid).value;
      && |r| == |refs|
      && forall i :: 0 <= i < |r| ==> r[i].id == refs[i] && uid in r[i].members
  {
    var refs := db.users[uid].chatRefs;
    assert forall c :: c in refs ==> c in db.chats && uid in db.chats[c].members;
    NoDanglingRefs(refs, db.chats);
  }

  lemma {:induction false} SnapshotsAppend(refs: seq<string>, c: string, chats: map<string, Chat>)
    requires c in chats
    ensures ChatSnapshots(refs + [c], chats) == ChatSnapshots(refs, chats) + [chats[c]]
  {
    if refs != [] {
      assert (refs + [c])[1..] == refs[1..] + [c];
      SnapshotsAppend(refs[1..], c, chats);
    } else {
      assert ChatSnapshots([c][1..], chats) == [];
    }
  }

  /** Adding a chat under a key no reference names leaves the snapshots of those references alone. */
  lemma {:induction false} SnapshotsIgnoreOtherChats(refs: seq<string>, chats: map<string, Chat>,
                                                     id: string, chat: Chat)
    requires id !in refs
    ensures ChatSnapshots(refs, chats[id := chat]) == ChatSnapshots(refs, chats)
  {
    if refs != [] {
      SnapshotsIgnoreOtherChats(refs[1..], chats, id, chat);
    }
  }

  /**
   * After a committed `createChat`, the initiator's chat list is the old one with the new
   * chat at the end.
   */
  lemma ListingAfterCreateChat(db: Db, current: Member, searched: User, createdAt: nat)
    requires Consistent(db)
    requires CreateChatTx(db, current, searched, createdAt).outcome == Committed
    ensures var db' := CreateChatTx(db, current, searched, createdAt).db;
      var id := CombinedId(current.id, searched.id);
      && FetchChatsByUserId(db', current.id).Success?
      && FetchChatsByUserId(db', current.id).value
           == FetchChatsByUserId(db, current.id).value + [db'.chats[id]]
  {
    var db' := CreateChatTx(db, current, searched, createdAt).db;
    var id := CombinedId(current.id, searched.id);
    CreateChatWritesChat(db, current, searched, createdAt);
    CreateChatLinksBothUsers(db, current, searched, createdAt, current.id);
    var refs := db.users[current.id].chatRefs;
    assert id !in refs;
    assert db'.users[current.id].chatRefs == refs + [id];
    SnapshotsAppend(refs, id, db'.chats);
    SnapshotsIgnoreOtherChats(refs, db.chats, id, db'.chats[id]);
  }
}
