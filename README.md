# Chat client data-access layer, in Dafny

This project models the data-access layer of a browser chat client (`src/firebase.ts`). The
layer maps chat operations onto a hosted document store. The store is replaced here by three
in-memory collections:

- `users`: uid to user document `{id, username, email, photoURL, createdAt, chatRefs}`
- `chats`: chat id to chat document `{id, createdAt, members, lastMessage?}`
- `messages`: chat id to the chat's message subcollection, message id to `{id, senderId, content, createdAt}`

Modules:

- `ChatIds`: the two-party chat key. The key puts the larger uid first, where larger means
  JavaScript's string `>`, modelled as `LexLess`. The module proves that the key is
  commutative and that its length is the sum of the two id lengths. It also proves that the key
  determines the pair when all ids have the same length, and shows a collision between ids of
  different lengths.
- `Documents`: the three document types, the store's `arrayUnion` on `chatRefs`, and the
  `members` object literal of a new chat. When both uids are equal, that literal has one key.
- `ChatStore`: the store as a value (`Db`) and as the class `Store`, which holds the three
  maps. There is one pure transition per writer: `RegisterUserTx`, `CreateChatTx` and
  `CreateMessageTx`. Each one is proved to keep `Consistent`, which says:
  - every document is stored under its own id;
  - no `chatRefs` holds a duplicate;
  - every listed chat exists and has that user as a member;
  - no user document has a `uid` field;
  - every `lastMessage` is stored in its chat's subcollection.

  Each `Store` method does the writes one after another. It is proved equal to its transition
  and keeps the invariant. Transactions and batches are all-or-nothing: any outcome other than
  `Committed` leaves the store unchanged.
- `UserDirectory`: `fetchUsersByUsername`, as written and as evidently intended (see Findings).
- `ChatListing`: `fetchChatsByUserId` over the store. Dangling references are dropped, and
  the result keeps `chatRefs` order.
- `MessagePages`: `fetchMessagesByChatId`. It orders by `createdAt` descending, applies the
  `startAfter` cursor and the limit, and then `shift()` drops the first fetched message.

Modelling choices:

- Server timestamps (`serverTimestamp()`) are natural numbers that the caller supplies.
- The uid from the identity service, the uploaded photo's URL and the message id from `uuid()`
  are parameters.
- `createChat`'s transaction is started but never awaited (`src/firebase.ts:106`). So the
  promise `createChat` returns always resolves, and the "already exists" error never reaches
  the caller. `Store.CreateChat` returns the transaction's own outcome: `ChatExists`,
  `UserMissing` or `Committed`. That outcome is visible only to the unawaited promise.
- An `update` of a document that does not exist makes the commit fail. So `createChat` aborts
  with `UserMissing` when either user document is missing. `createMessage` aborts with
  `ChatMissing` when the chat is missing, and then the message is not written either.
- `batch.set` overwrites, so `CreateMessage` needs no freshness assumption on the message id.
- `limit(n)` rejects a limit below 1, which gives `Failure(InvalidLimit)`. A page holds at
  most `queryLimit - 1` messages.
- The read pipelines take what the store returns as sequences: the users collection in query
  order, or a chat's message subcollection. `fetchChatsByUserId` reads the `Db` maps directly.
- In `fetchChatsByUserId`, reading `chatRefs` of a missing user document throws. This is
  modelled as `Failure(NoUserDocument)`.

## Model

| member | source | states |
|---|---|---|
| `ChatIds.CombinedId` | src/firebase.ts:100-103 | the key is one of the two concatenations of the ids, and its length is the sum of their lengths |
| `ChatIds.LexLessTotal` | src/firebase.ts:101 | string `>` orders any two different ids one way or the other |
| `ChatIds.LexLessIrreflexive` | src/firebase.ts:101 | string `>` never holds between a string and itself; with asymmetry, `>` is a strict order |
| `ChatIds.LexLessAsymmetric` | src/firebase.ts:101 | string `>` never holds in both directions |
| `ChatIds.LargerIdFirst` | src/firebase.ts:100-103 | the larger id comes first whichever user starts the chat |
| `ChatIds.CombinedIdCommutative` | src/firebase.ts:100-103 | `CombinedId(a, b) == CombinedId(b, a)` for all ids |
| `ChatIds.CombinedIdDeterminesPair` | src/firebase.ts:100-103 | for ids of equal length, equal keys mean the same unordered pair of users |
| `ChatIds.CombinedIdCollidesForUnequalLengths` | src/firebase.ts:100-103 | the pairs ("c", "ab") and ("ca", "b") share the key "cab" |
| `Documents.ArrayUnion` | src/firebase.ts:129-135 | existing refs are kept in order, the ref is present afterwards, it is added only if absent, no other count changes, and no-duplicates is preserved |
| `Documents.ArrayUnionIdempotent` | src/firebase.ts:129-135 | a second union of the same ref changes nothing |
| `Documents.ChatMembers` | src/firebase.ts:115-126 | the keys are exactly the two uids, and the searched user's entry wins; one entry when the uids are equal, two otherwise |
| `ChatStore.RegisterUserTx` | src/firebase.ts:64-71 | the user document is written under the uid with that id, those fields and empty `chatRefs`; nothing else changes, and consistency is kept |
| `ChatStore.Store.RegisterUser` | src/firebase.ts:64-71 | the store's new state is `RegisterUserTx` of the old one, and the invariant is kept |
| `ChatStore.CreateChatTx` | src/firebase.ts:104-136 | aborts with `ChatExists` exactly when a chat exists at the combined id; commits exactly when it does not and both users exist; an abort changes nothing |
| `ChatStore.CreateChatWritesChat` | src/firebase.ts:112-127 | a commit adds only the new chat, with `id` equal to the combined id, the server timestamp as `createdAt`, members keyed by both uids holding `ChatMembers` of the caller's profile and the searched user's username and photo, and no last message; messages are unchanged |
| `ChatStore.CreateChatUpdatesUsers` | src/firebase.ts:129-135 | a commit unions the chat id into both users' `chatRefs` (once when they are the same user) and changes no other user |
| `ChatStore.CreateChatLinksBothUsers` | src/firebase.ts:129-135 | on a consistent store, each user's refs become the old refs followed by the new chat id, which then occurs exactly once, with no duplicates |
| `ChatStore.CreateChatKeepsConsistent` | src/firebase.ts:106-136 | `createChat` keeps the store consistent |
| `ChatStore.CreateChatTwiceAborts` | src/firebase.ts:104-110 | after a commit, a second `createChat` for the same pair, in either order, aborts with `ChatExists` and writes nothing |
| `ChatStore.Store.CreateChat` | src/firebase.ts:96-137 | the outcome and new state are `CreateChatTx` of the old state, and the invariant is kept |
| `ChatStore.CreateMessageTx` | src/firebase.ts:164-178 | commits exactly when the chat exists; a commit stores the message under its id and sets `lastMessage` to the same record, with nothing else changed; otherwise it ends with `ChatMissing` and changes nothing |
| `ChatStore.CreateMessageKeepsConsistent` | src/firebase.ts:173-178 | `createMessage` keeps the store consistent, including "every `lastMessage` is stored" |
| `ChatStore.SentMessageIsLastMessage` | src/firebase.ts:165-177 | after a send, the stored message and `lastMessage` are the same record, with the sent content and sender |
| `ChatStore.Store.CreateMessage` | src/firebase.ts:159-179 | the outcome and new state are `CreateMessageTx` of the old state, and the invariant is kept |
| `UserDirectory.WhereUsername` | src/firebase.ts:82 | keeps exactly the documents with that username, in order |
| `UserDirectory.WhereUsernameCounts` | src/firebase.ts:82 | each matching document appears in the result as often as in the collection, any other not at all |
| `UserDirectory.UidFieldIsNot` | src/firebase.ts:86-88 | keeps exactly the documents whose `uid` field is not the caller's uid, in order |
| `UserDirectory.UidFieldIsNotCounts` | src/firebase.ts:86-88 | each document whose `uid` field is not the caller's is kept as often as it occurs, the others not at all |
| `UserDirectory.FetchUsersByUsername` | src/firebase.ts:81-94 | fails with the bare error exactly when the query fails; otherwise returns exactly the documents with that username whose `uid` field differs from the caller's, as a subsequence of the query order |
| `UserDirectory.FailureReasonIsLost` | src/firebase.ts:91-93 | two failures with different reasons give the same error |
| `UserDirectory.CallerFilterKeepsEverything` | src/firebase.ts:86-88 | over documents without a `uid` field, the caller filter returns its input unchanged |
| `UserDirectory.StoredUsersHaveNoUidField` | src/firebase.ts:64-71 | no user document of a consistent store has a `uid` field |
| `UserDirectory.CallerIsNotExcluded` | src/firebase.ts:81-94 | a caller named "alice" who searches for "alice" gets their own document back |
| `UserDirectory.IdIsNot` | src/firebase.ts:88 | keeps exactly the documents whose id is not the caller's, in order |
| `UserDirectory.IdIsNotCounts` | src/firebase.ts:88 | each document whose id is not the caller's is kept as often as it occurs, the others not at all |
| `UserDirectory.FetchUsersByUsernameExcludingCaller` | src/firebase.ts:81-94 | corrected lookup: the documents with that username whose id is not the caller's, in query order, or the bare error |
| `UserDirectory.CorrectedLookupNeverReturnsCaller` | src/firebase.ts:86-88 | the corrected lookup never returns a document whose id is the caller's |
| `ChatListing.ExistingRefs` | src/firebase.ts:152 | keeps exactly the refs whose chat exists, in `chatRefs` order |
| `ChatListing.ExistingRefsCounts` | src/firebase.ts:152 | a ref whose chat exists is kept as often as it occurs in `chatRefs`, any other not at all |
| `ChatListing.ChatSnapshots` | src/firebase.ts:147-153 | the result is the data of the existing chats, one per surviving ref, in ref order |
| `ChatListing.FetchChatsByUserId` | src/firebase.ts:139-157 | fails exactly when the user document is missing; otherwise returns exactly the stored chats of the user's refs whose chat exists, in `chatRefs` order |
| `ChatListing.ListingOfConsistentStore` | src/firebase.ts:143-153 | on a consistent store no ref dangles: one chat per ref, in ref order, each listing the user as a member |
| `ChatListing.ListingAfterCreateChat` | src/firebase.ts:129-153 | after a committed `createChat`, the initiator's chat list is the old list followed by the new chat |
| `MessagePages.InsertByTime` | src/firebase.ts:191 | inserting into a newest-first sequence keeps it newest first and adds exactly that message |
| `MessagePages.OrderByCreatedAtDesc` | src/firebase.ts:191 | the result is newest first and a permutation of the input |
| `MessagePages.StartAfter` | src/firebase.ts:193 | keeps exactly the messages strictly older than the cursor, and never adds any |
| `MessagePages.StartAfterCounts` | src/firebase.ts:193 | a message past the cursor is kept as often as it occurs, any other not at all |
| `MessagePages.RunQuery` | src/firebase.ts:186-203 | the fetched messages are newest first, at most `limit` of them, drawn from the subcollection, and all past the cursor |
| `MessagePages.QueryKeepsNewest` | src/firebase.ts:189-200 | a matching message is left out only when `limit` messages were fetched, none of them older than it |
| `MessagePages.FetchedPage` | src/firebase.ts:203-208 | the page is newest first, shorter than the limit (or empty), drawn from the subcollection, older than the cursor, and is the fetched list without its first element |
| `MessagePages.FetchMessagesByChatId` | src/firebase.ts:181-209 | fails exactly when the limit is below 1; otherwise returns `FetchedPage`, newest first, at most `queryLimit - 1` messages, all older than the cursor |
| `MessagePages.NewestMatchIsDropped` | src/firebase.ts:207 | the newest matching message is never on the page, and no matching message is newer than it |
| `MessagePages.PagesDoNotOverlap` | src/firebase.ts:188-194 | the page fetched with the previous page's last message as cursor shares no message id with the previous page |

## Left out

- Firebase initialisation and environment configuration (`src/firebase.ts:29-42`) are global client handles.
- `loginUser`, `createUserWithEmailAndPassword` and `updateProfile` (`src/firebase.ts:44-48, 56, 73-76`) call the identity service; the uid and display fields are inputs.
- The profile picture upload and URL lookup (`src/firebase.ts:59-62`) are object-store I/O; the URL is an input. The steps of `registerUser` are not atomic, and a failure after account creation leaves an account with no user document. This is not modelled.
- `uuid()` and `serverTimestamp()` are parameters.
- `createChat` returns before its transaction runs, and its promise always resolves. The order of that transaction relative to the caller's later calls is not modelled. Optimistic-concurrency retries, and interleaving with other clients, are left out too: each transaction and batch is one atomic step.
- `Promise.all` in `fetchChatsByUserId` is modelled as sequential reads.
- MessagePages.OrderByCreatedAtDesc: does not model how the store breaks ties between equal timestamps, which is by document name. Equal timestamps keep the order the subcollection is given in.
- ChatIds.LexLess: compares Unicode code points, whereas JavaScript compares UTF-16 code units. The two differ only for characters outside the Basic Multilingual Plane.
- MessagePages.FetchMessagesByChatId: takes the subcollection as a sequence rather than reading it from the `Store` object. It also models `queryLimit` as an integer, not a floating-point number.
- The drop of the first fetched message (`src/firebase.ts:207`) is kept as written. `MessagePages.NewestMatchIsDropped` states its effect, and no corrected pagination is modelled. The lemmas about pages assume that message ids are unique, as they are in a subcollection keyed by id.
- `src/components/ChatWindow/ChatWindow.tsx` is static markup with no logic.
- The `types` module is not part of this model. The document types here follow the fields that `src/firebase.ts` writes.

## Findings

| source | as written | input that shows it | evidently intended | confidence | as-written member | corrected member |
|---|---|---|---|---|---|---|
| src/firebase.ts:88 | the caller filter compares `data.uid`, a field that `registerUser` never writes (it writes `id`, `src/firebase.ts:65`), so nothing is filtered out | caller "u1" whose username is "alice" searches for "alice" and gets their own document | drop the document whose `id` equals the caller's uid | high, not executed | `UserDirectory.CallerIsNotExcluded` | `UserDirectory.FetchUsersByUsernameExcludingCaller` |
