/**
 * The three kinds of document the chat client keeps in the document store, and the two
 * field-level operations the writers use on them: the `members` map literal of a new chat
 * and the array-union of a chat reference into a user's `chatRefs`.
 */
module Documents {
  import opened Wrappers

  /**
   * A document of the `users` collection, written by `registerUser`. `uid` is the value of
   * the document's `uid` field, which `fetchUsersByUsername` filters on; `registerUser`
   * never writes that field, so it is `None` in every document it creates.
   * `createdAt` stands for the server timestamp.
   */
  datatype User = User(
    id: string,
    username: string,
    email: string,
    photoURL: string,
    createdAt: nat,
    chatRefs: seq<string>,
    uid: Option<string>)

  /** One entry of a chat's `members` map; display name and photo may be null. */
  datatype Member = Member(id: string, username: Option<string>, photoURL: Option<string>)

  /** A document of a chat's `messages` subcollection. */
  datatype Message = Message(id: string, senderId: string, content: string, createdAt: nat)

  /** A document of the `chats` collection; `lastMessage` is absent until a message is sent. */
  datatype Chat = Chat(
    id: string,
    createdAt: nat,
    members: map<string, Member>,
    lastMessage: Option<Message>)

  predicate NoDuplicates<T(==)>(s: seq<T>)
  {
    forall i, j :: 0 <= i < j < |s| ==> s[i] != s[j]
  }

  /**
   * The store's array-union of `x` into an array field: existing entries stay where they
   * are, and `x` is appended only when it is not already there.
   */
  function ArrayUnion(s: seq<string>, x: string): (r: seq<string>)
    ensures |s| <= |r| <= |s| + 1 && r[..|s|] == s
    ensures x in r
    ensures forall y :: y in r <==> y in s || y == x
    ensures multiset(r)[x] == if x in s then multiset(s)[x] else 1
    ensures forall y :: y != x ==> multiset(r)[y] == multiset(s)[y]
    ensures NoDuplicates(s) ==> NoDuplicates(r)
  {
    if x in s then s else s + [x]
  }

  /** A second union of the same element changes nothing. */
  lemma ArrayUnionIdempotent(s: seq<string>, x: string)
    ensures ArrayUnion(ArrayUnion(s, x), x) == ArrayUnion(s, x)
  {
  }

  /**
   * The `members` object literal, keyed by the current user's id and then the searched user's: two keys, unless
   * the ids are equal, in which case the later entry (the searched user's) is the only one.
   */
  function ChatMembers(current: Member, searched: Member): (m: map<string, Member>)
    ensures m.Keys == {current.id, searched.id}
    ensures m[searched.id] == searched
    ensures current.id != searched.id ==> m[current.id] == current
    ensures |m| == if current.id == searched.id then 1 else 2
  {
    var m := map[current.id := current, searched.id := searched];
    assert current.id == searched.id ==> m.Keys == {searched.id};
    assert current.id != searched.id ==> |m.Keys| == |{current.id} + {searched.id}| == 2;
    m
  }

  /** `a` is `b` with some elements left out, the rest in their original order. */
  ghost predicate SubsequenceOf<T>(a: seq<T>, b: seq<T>)
  {
    if a == [] then true
    else if b == [] then false
    else (a[0] == b[0] && SubsequenceOf(a[1..], b[1..])) || SubsequenceOf(a, b[1..])
  }

  lemma {:induction false} SubsequenceTransitive<T>(a: seq<T>, b: seq<T>, c: seq<T>)
    requires SubsequenceOf(a, b) && SubsequenceOf(b, c)
    ensures SubsequenceOf(a, c)
    decreases |c|
  {
    if a != [] && c != [] {
      if b[0] == c[0] && SubsequenceOf(b[1..], c[1..]) {
        if a[0] == b[0] && SubsequenceOf(a[1..], b[1..]) {
          SubsequenceTransitive(a[1..], b[1..], c[1..]);
        } else {
          SubsequenceTransitive(a, b[1..], c[1..]);
        }
      } else {
        SubsequenceTransitive(a, b, c[1..]);
      }
    }
  }
}
