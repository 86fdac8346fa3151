/**
 * The document store the data-access layer writes to, reduced to the three collections it
 * uses, and the three writers: the user-document write of `registerUser`, the `createChat`
 * transaction and the `createMessage` batch. Each writer is a pure transition on a `Db`
 * value, proved to keep `Consistent`, and a method of the `Store` class that performs the
 * writes one after the other and is proved equal to that transition.
 */
module ChatStore {
  import opened Wrappers
  import opened Documents
  import opened ChatIds

  /** users: uid -> user; chats: chat id -> chat; messages: chat id -> (message id -> message). */
  datatype Db = Db(
    users: map<string, User>,
    chats: map<string, Chat>,
    messages: map<string, map<string, Message>>)

  /** How a transaction or batch ended. Anything but `Committed` leaves the store unchanged. */
  datatype Outcome = Committed | ChatExists | UserMissing | ChatMissing

  /** The result of applying one transaction or batch. */
  datatype Step = Step(outcome: Outcome, db: Db)

  /** The message subcollection of a chat; empty until the first message is written. */
  function Subcollection(db: Db, chatId: string): map<string, Message>
  {
    if chatId in db.messages then db.messages[chatId] else map[]
  }

  /**
   * What the writers keep true: documents are stored under their own id, no user lists a chat
   * twice, every listed chat exists and has that user as a member, no user document has a
   * `uid` field, and a chat's `lastMessage` is a message stored in its subcollection.
   */
  ghost predicate Consistent(db: Db)
  {
    UsersKeyed(db) && RefsDistinct(db) && RefsResolve(db)
    && ChatsKeyed(db) && MessagesKeyed(db) && LastMessagesStored(db)
  }

  ghost predicate UsersKeyed(db: Db)
  {
    forall u :: u in db.users ==> db.users[u].id == u && db.users[u].uid == None
  }

  ghost predicate RefsDistinct(db: Db)
  {
    forall u :: u in db.users ==> NoDuplicates(db.users[u].chatRefs)
  }

  ghost predicate RefsResolve(db: Db)
  {
    forall u, c :: u in db.users && c in db.users[u].chatRefs ==> c in db.chats && u in db.chats[c].members
  }

  ghost predicate ChatsKeyed(db: Db)
  {
    forall c :: c in db.chats ==> db.chats[c].id == c
  }

  ghost predicate MessagesKeyed(db: Db)
  {
    forall c, k :: c in db.messages && k in db.messages[c] ==> db.messages[c][k].id == k
  }

  ghost predicate LastMessagesStored(db: Db)
  {
    forall c :: c in db.chats && db.chats[c].lastMessage.Some? ==> LastMessageStored(db, c)
  }

  ghost predicate LastMessageStored(db: Db, c: string)
    requires c in db.chats && db.chats[c].lastMessage.Some?
  {
    var m := db.chats[c].lastMessage.value;
    m.id in Subcollection(db, c) && Subcollection(db, c)[m.id] == m
  }

  const Empty := Db(map[], map[], map[])

  // ---------------------------------------------------------------- registerUser

  /**
   * The `setDoc` of `registerUser`: the user document is written, or overwritten,
   * with an empty `chatRefs` and no `uid` field.
   */
  function RegisterUserTx(db: Db, uid: string, username: string, email: string, photoURL: string,
                          createdAt: nat): (db': Db)
    ensures db'.users.Keys == db.users.Keys + {uid}
    ensures db'.users[uid].id == uid && db'.users[uid].chatRefs == []
    ensures db'.users[uid].username == username && db'.users[uid].email == email
    ensures db'.users[uid].photoURL == photoURL && db'.users[uid].createdAt == createdAt
    ensures forall u :: u in db.users && u != uid ==> db'.users[u] == db.users[u]
    ensures db'.chats == db.chats && db'.messages == db.messages
    ensures Consistent(db) ==> Consistent(db')
  {
    db.(users := db.users[uid := User(uid, username, email, photoURL, createdAt, [], None)])
  }

  // ---------------------------------------------------------------- createChat

  /** The transactional update that unions `chatId` into an existing user's `chatRefs`. */
  function LinkChat(users: map<string, User>, uid: string, chatId: string): map<string, User>
    requires uid in users
  {
    users[uid := users[uid].(chatRefs := ArrayUnion(users[uid].chatRefs, chatId))]
  }

  /** The chat document `createChat` writes. */
  function NewChat(current: Member, searched: User, createdAt: nat): Chat
  {
    var searchedMember := Member(searched.id, Some(searched.username), Some(searched.photoURL));
    Chat(CombinedId(current.id, searched.id), createdAt, ChatMembers(current, searchedMember), None)
  }

  /**
   * The transaction `createChat` starts: read the chat at the combined id and abort when it
   * exists; otherwise set the chat and union its id into both users' `chatRefs`. An update of
   * a user document that does not exist makes the commit fail, so nothing is written then.
   * `current` is the signed-in user's uid, display name and photo URL.
   */
  function CreateChatTx(db: Db, current: Member, searched: User, createdAt: nat): (r: Step)
    ensures var id := CombinedId(current.id, searched.id);
      && (r.outcome == ChatExists <==> id in db.chats)
      && (r.outcome == Committed <==>
            id !in db.chats && current.id in db.users && searched.id in db.users)
      && (r.outcome != Committed ==> r.db == db)
  {
    var id := CombinedId(current.id, searched.id);
    if id in db.chats then Step(ChatExists, db)
    else if current.id !in db.users || searched.id !in db.users then Step(UserMissing, db)
    else
      var chats := db.chats[id := NewChat(current, searched, createdAt)];
      var users := LinkChat(LinkChat(db.users, current.id, id), searched.id, id);
      Step(Committed, Db(users, chats, db.messages))
  }

  /**
   * A committed `createChat` adds exactly the new chat, with id `CombinedId`, the server
   * timestamp, and both users as members filled from their profiles, and leaves every other chat and all messages as they were.
   */
  lemma CreateChatWritesChat(db: Db, current: Member, searched: User, createdAt: nat)
    requires CreateChatTx(db, current, searched, createdAt).outcome == Committed
    ensures var id := CombinedId(current.id, searched.id);
      var db' := CreateChatTx(db, current, searched, createdAt).db;
      && id !in db.chats && id in db'.chats
      && db'.chats == db.chats[id := db'.chats[id]]
      && db'.chats[id].id == id
      && db'.chats[id].members.Keys == {current.id, searched.id}
      && db'.chats[id].createdAt == createdAt
      && db'.chats[id].members
         == ChatMembers(current, Member(searched.id, Some(searched.username), Some(searched.photoURL)))
      && db'.chats[id].lastMessage == None
      && db'.messages == db.messages
  {
  }

  /**
   * A committed `createChat` unions the chat id into the `chatRefs` of both users, once even
   * when they are the same user, and changes no other user.
   */
  lemma CreateChatUpdatesUsers(db: Db, current: Member, searched: User, createdAt: nat)
    requires CreateChatTx(db, current, searched, createdAt).outcome == Committed
    ensures var id := CombinedId(current.id, searched.id);
      var db' := CreateChatTx(db, current, searched, createdAt).db;
      && db'.users.Keys == db.users.Keys
      && (forall u :: u in db.users && u != current.id && u != searched.id ==>
            db'.users[u] == db.users[u])
      && (forall u :: u in {current.id, searched.id} ==>
            db'.users[u] == db.users[u].(chatRefs := ArrayUnion(db.users[u].chatRefs, id)))
  {
    var id := CombinedId(current.id, searched.id);
    ArrayUnionIdempotent(db.users[current.id].chatRefs, id);
  }

  /** A committed `createChat` keeps the store consistent. */
  lemma CreateChatKeepsConsistent(db: Db, current: Member, searched: User, createdAt: nat)
    requires Consistent(db)
    ensures Consistent(CreateChatTx(db, current, searched, createdAt).db)
  {
    if CreateChatTx(db, current, searched, createdAt).outcome == Committed {
      CreateChatWritesChat(db, current, searched, createdAt);
      CreateChatUpdatesUsers(db, current, searched, createdAt);
      LinkingKeepsConsistent(db, CreateChatTx(db, current, searched, createdAt).db,
                             CombinedId(current.id, searched.id), current.id, searched.id);
    }
  }

  /** Adding a fresh chat with members `a` and `b` and linking it to both keeps consistency. */
  lemma LinkingKeepsConsistent(db: Db, db': Db, id: string, a: string, b: string)
    requires Consistent(db)
    requires id !in db.chats && id in db'.chats && db'.chats == db.chats[id := db'.chats[id]]
    requires db'.chats[id].id == id && db'.chats[id].members.Keys == {a, b}
    requires db'.chats[id].lastMessage == None && db'.messages == db.messages
    requires a in db.users && b in db.users && db'.users.Keys == db.users.Keys
    requires forall u :: u in db.users && u != a && u != b ==> db'.users[u] == db.users[u]
    requires forall u :: u in {a, b} ==>
               db'.users[u] == db.users[u].(chatRefs := ArrayUnion(db.users[u].chatRefs, id))
    ensures Consistent(db')
  {
    LinkingKeepsUsers(db, db', id, a, b);
    LinkingKeepsRefs(db, db', id, a, b);
    LinkingKeepsLastMessages(db, db', id, a, b);
  }

  lemma LinkingKeepsUsers(db: Db, db': Db, id: string, a: string, b: string)
    requires Consistent(db)
    requires id !in db.chats && id in db'.chats && db'.chats == db.chats[id := db'.chats[id]]
    requires db'.chats[id].id == id && db'.chats[id].members.Keys == {a, b}
    requires db'.chats[id].lastMessage == None && db'.messages == db.messages
    requires a in db.users && b in db.users && db'.users.Keys == db.users.Keys
    requires forall u :: u in db.users && u != a && u != b ==> db'.users[u] == db.users[u]
    requires forall u :: u in {a, b} ==>
               db'.users[u] == db.users[u].(chatRefs := ArrayUnion(db.users[u].chatRefs, id))
    ensures UsersKeyed(db') && RefsDistinct(db')
  {
    forall u | u in db'.users
      ensures db'.users[u].id == u && db'.users[u].uid == None
      ensures NoDuplicates(db'.users[u].chatRefs)
    {
      assert db'.users[u].id == db.users[u].id && db'.users[u].uid == db.users[u].uid;
      assert NoDuplicates(db.users[u].chatRefs);
    }
  }

  lemma LinkingKeepsRefs(db: Db, db': Db, id: string, a: string, b: string)
    requires RefsResolve(db)
    requires id !in db.chats && id in db'.chats && db'.chats == db.chats[id := db'.chats[id]]
    requires db'.chats[id].members.Keys == {a, b}
    requires a in db.users && b in db.users && db'.users.Keys == db.users.Keys
    requires forall u :: u in db.users && u != a && u != b ==> db'.users[u] == db.users[u]
    requires forall u :: u in {a, b} ==>
               db'.users[u] == db.users[u].(chatRefs := ArrayUnion(db.users[u].chatRefs, id))
    ensures RefsResolve(db')
  {
    forall u, c | u in db'.users && c in db'.users[u].chatRefs
      ensures c in db'.chats && u in db'.chats[c].members
    {
      if c != id {
        if u in {a, b} {
          assert c in ArrayUnion(db.users[u].chatRefs, id);
        }
        assert c in db.users[u].chatRefs;
        assert db'.chats[c] == db.chats[c];
      }
    }
  }

  lemma LinkingKeepsLastMessages(db: Db, db': Db, id: string, a: string, b: string)
    requires Consistent(db)
    requires id !in db.chats && id in db'.chats && db'.chats == db.chats[id := db'.chats[id]]
    requires db'.chats[id].id == id && db'.chats[id].members.Keys == {a, b}
    requires db'.chats[id].lastMessage == None && db'.messages == db.messages
    requires a in db.users && b in db.users && db'.users.Keys == db.users.Keys
    requires forall u :: u in db.users && u != a && u != b ==> db'.users[u] == db.users[u]
    requires forall u :: u in {a, b} ==>
               db'.users[u] == db.users[u].(chatRefs := ArrayUnion(db.users[u].chatRefs, id))
    ensures ChatsKeyed(db') && MessagesKeyed(db') && LastMessagesStored(db')
  {
    forall c | c in db'.chats && db'.chats[c].lastMessage.Some?
      ensures LastMessageStored(db', c)
    {
      assert c != id && db'.chats[c] == db.chats[c];
      assert LastMessageStored(db, c);
    }
  }

  /**
   * Both users end up listing the new chat exactly once, after the chats they already
   * listed, in their old order.
   */
  lemma CreateChatLinksBothUsers(db: Db, current: Member, searched: User, createdAt: nat, u: string)
    requires Consistent(db)
    requires CreateChatTx(db, current, searched, createdAt).outcome == Committed
    requires u == current.id || u == searched.id
    ensures var refs := db.users[u].chatRefs;
      var refs' := CreateChatTx(db, current, searched, createdAt).db.users[u].chatRefs;
      && refs' == refs + [CombinedId(current.id, searched.id)]
      && multiset(refs')[CombinedId(current.id, searched.id)] == 1
      && NoDuplicates(refs')
  {
    var id := CombinedId(current.id, searched.id);
    var refs := db.users[u].chatRefs;
    assert id !in refs;
    CreateChatUpdatesUsers(db, current, searched, createdAt);
  }

  /**
   * Once `createChat` has committed for a pair of users, a second `createChat` for the same
   * pair, started by either of them, aborts with "already exists" and writes nothing.
   */
  lemma CreateChatTwiceAborts(db: Db, current: Member, searched: User, createdAt: nat,
                              current2: Member, searched2: User, createdAt2: nat)
    requires CreateChatTx(db, current, searched, createdAt).outcome == Committed
    requires (current2.id == current.id && searched2.id == searched.id)
          || (current2.id == searched.id && searched2.id == current.id)
    ensures var db1 := CreateChatTx(db, current, searched, createdAt).db;
      CreateChatTx(db1, current2, searched2, createdAt2) == Step(ChatExists, db1)
  {
    CombinedIdCommutative(current.id, searched.id);
  }

  // ---------------------------------------------------------------- createMessage

  /**
   * The batch `createMessage` commits: set the message in the chat's subcollection and
   * overwrite the chat's `lastMessage` with the same record. The update fails on a chat that
   * does not exist, and then neither write happens.
   */
  function CreateMessageTx(db: Db, chatId: string, senderId: string, content: string,
                           messageId: string, createdAt: nat): (r: Step)
    ensures var m := Message(messageId, senderId, content, createdAt);
      && (r.outcome == Committed <==> chatId in db.chats)
      && (r.outcome != Committed ==> r.outcome == ChatMissing && r.db == db)
      && (r.outcome == Committed ==>
            && chatId in r.db.messages && chatId in r.db.chats && r.db.messages[chatId] == Subcollection(db, chatId)[messageId := m]
            && r.db.messages == db.messages[chatId := r.db.messages[chatId]]
            && r.db.chats == db.chats[chatId := r.db.chats[chatId]]
            && r.db.chats[chatId].lastMessage == Some(m)
            && r.db.chats[chatId].(lastMessage := db.chats[chatId].lastMessage) == db.chats[chatId]
            && r.db.users == db.users)
  {
    if chatId !in db.chats then Step(ChatMissing, db)
    else
      var m := Message(messageId, senderId, content, createdAt);
      var messages := db.messages[chatId := Subcollection(db, chatId)[messageId := m]];
      var chats := db.chats[chatId := db.chats[chatId].(lastMessage := Some(m))];
      Step(Committed, Db(db.users, chats, messages))
  }

  lemma CreateMessageKeepsConsistent(db: Db, chatId: string, senderId: string, content: string,
                                     messageId: string, createdAt: nat)
    requires Consistent(db)
    ensures Consistent(CreateMessageTx(db, chatId, senderId, content, messageId, createdAt).db)
  {
    var r := CreateMessageTx(db, chatId, senderId, content, messageId, createdAt);
    if r.outcome == Committed {
      var db' := r.db;
      assert RefsResolve(db') by {
        forall u, c | u in db'.users && c in db'.users[u].chatRefs
          ensures c in db'.chats && u in db'.chats[c].members
        {
          assert c in db.chats && u in db.chats[c].members;
        }
      }
      assert LastMessagesStored(db') by {
        forall c | c in db'.chats && db'.chats[c].lastMessage.Some?
          ensures LastMessageStored(db', c)
        {
          if c != chatId {
            assert Subcollection(db', c) == Subcollection(db, c);
            assert LastMessageStored(db, c);
          }
        }
      }
    }
  }

  /**
   * After a committed `createMessage`, the message stored under its id and the chat's
   * `lastMessage` are the same record, with the sender and content that were sent.
   */
  lemma SentMessageIsLastMessage(db: Db, chatId: string, senderId: string, content: string,
                                 messageId: string, createdAt: nat)
    requires chatId in db.chats
    ensures var db' := CreateMessageTx(db, chatId, senderId, content, messageId, createdAt).db;
      && messageId in Subcollection(db', chatId)
      && db'.chats[chatId].lastMessage == Some(Subcollection(db', chatId)[messageId])
      && db'.chats[chatId].lastMessage.value.content == content
      && db'.chats[chatId].lastMessage.value.senderId == senderId
  {
  }

  // ---------------------------------------------------------------- the store object

  /** The document store, one map per collection, written in place by the three writers. */
  class Store {
    var users: map<string, User>
    var chats: map<string, Chat>
    var messages: map<string, map<string, Message>>

    ghost function State(): Db
      reads this
    {
      Db(users, chats, messages)
    }

    ghost predicate Valid()
      reads this
    {
      Consistent(State())
    }

    constructor ()
      ensures Valid() && State() == Empty
    {
      users, chats, messages := map[], map[], map[];
    }

    /** The `setDoc` of `registerUser`; the uid comes from the identity service. */
    method RegisterUser(uid: string, username: string, email: string, photoURL: string,
                        createdAt: nat)
      requires Valid()
      modifies this
      ensures Valid()
      ensures State() == RegisterUserTx(old(State()), uid, username, email, photoURL, createdAt)
    {
      users := users[uid := User(uid, username, email, photoURL, createdAt, [], None)];
    }

    /**
     * The transaction of `createChat`. The outcome is what the transaction's promise settles
     * to; `createChat` itself does not await it and always resolves.
     */
    method CreateChat(current: Member, searched: User, createdAt: nat) returns (outcome: Outcome)
      requires Valid()
      modifies this
      ensures Valid()
      ensures Step(outcome, State()) == CreateChatTx(old(State()), current, searched, createdAt)
    {
      ghost var before := State();
      var combinedId := CombinedId(current.id, searched.id);
      if combinedId in chats {
        return ChatExists;
      }
      // The updates below would fail at commit on a missing user document.
      if current.id !in users || searched.id !in users {
        return UserMissing;
      }
      var searchedMember := Member(searched.id, Some(searched.username), Some(searched.photoURL));
      chats := chats[combinedId := Chat(combinedId, createdAt, ChatMembers(current, searchedMember), None)];
      users := users[current.id := users[current.id].(chatRefs := ArrayUnion(users[current.id].chatRefs, combinedId))];
      users := users[searched.id := users[searched.id].(chatRefs := ArrayUnion(users[searched.id].chatRefs, combinedId))];
      outcome := Committed;
      CreateChatKeepsConsistent(before, current, searched, createdAt);
    }

    /** The batch of `createMessage`; the message id comes from `uuid()`. */
    method CreateMessage(chatId: string, currentUserId: string, content: string,
                         messageId: string, createdAt: nat) returns (outcome: Outcome)
      requires Valid()
      modifies this
      ensures Valid()
      ensures Step(outcome, State())
           == CreateMessageTx(old(State()), chatId, currentUserId, content, messageId, createdAt)
    {
      ghost var before := State();
      var message := Message(messageId, currentUserId, content, createdAt);
      if chatId !in chats {
        return ChatMissing;
      }
      var sub := if chatId in messages then messages[chatId] else map[];
      messages := messages[chatId := sub[messageId := message]];
      chats := chats[chatId := chats[chatId].(lastMessage := Some(message))];
      outcome := Committed;
      CreateMessageKeepsConsistent(before, chatId, currentUserId, content, messageId, createdAt);
    }
  }
}
