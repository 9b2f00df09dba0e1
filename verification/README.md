# Session state core of the Q&A client, in Dafny

This project models the pure state-transition core of the client's session
module (`src/reducers/session/index.js`) of a live Q&A tool. In that tool an
answerer creates a session, questioners join it, and questions are asked,
upvoted and answered while the server pushes events over a socket.

- **The `session` reducer** (`Reducer.Reduce`). It folds one tagged action
  into the state record. The record holds the session `id`, `name`, `locked`,
  `loading`, `me`, `socket`, `answerer`, `questioners`,
  `anonymousQuestioners` and `questions`. The reducer calls
  `action.sideEffect(...)`; here those calls become a list of `Effect`
  descriptors returned beside the new state, in call order. The state half
  is `Reducer.NextState` and the effect half is `Reducer.Effects`.
- **Three shapes of result.** Create, join and rejoin return a copy of the
  initial state. The three request actions and unrecognised actions return
  the state unchanged. Every other branch rebuilds the state as
  `{ ...state, ...payload }`.
  A payload is modelled as a `Patch`: a map from field keys to values of the
  matching type (`SessionModel.ApplyPatch`). `session/load` spreads an
  arbitrary patch. The other branches are small spreads (`Reducer.WithLocked`
  and its siblings).
- **`handleMessage`** (`Messages.HandleMessage`). It turns each of the six
  inbound socket tags into a reducer action. `Messages.ApplyMessages` folds a
  stream of messages into the state.
- **`toSessionInfo`** (`SessionInfo.ToSessionInfo`). It turns a server
  snapshot into the load payload. Unnamed questioners are filtered out and
  counted as anonymous. Questions are indexed by `questionId`, and when two
  share an id the later one wins, as in `indexBy`.
- **`setSelfQuestioner` / `setSelfAnswerer`, and the `Left`/`Right` choice**
  in the rejoin continuation (`SelfIdentity`).

Modelling choices:
- JavaScript `null` is `None`.
- `socket` is an opaque `Socket` token.
- `QUESTIONER` and `ANSWERER` are the two constructors of `Role`.
- The `me.type` field is called `role`.
- `initialState.questions` is written as an array (`[]`), but every later
  update treats it as a keyed object. The model uses an empty map. Spreading
  `[]` into an object gives `{}`, so the behaviour is the same.
- One might expect a snapshot to replace the session state wholesale. The
  code spreads the snapshot over the state instead, so
  `loading`, `me` and `socket` survive a snapshot. The model follows the code
  (`Messages.SnapshotLoad`, `Messages.SnapshotForgetsPriorSession`).
- `handleMessage` has no `default` case, so an unknown tag gives `undefined`.
  The model returns `None`, and `ApplyMessage` leaves the state unchanged
  for it. Dispatching `undefined` would throw before reaching the reducer.
- Behaviour as written: `session/questioner_joined` appends the questioner
  even when it has no name, and it does not touch `anonymousQuestioners`.
  Nothing in the reducer ever sets `loading` to false. The model keeps both.

## Model

| member | source | states |
|---|---|---|
| SessionModel.InitialWellFormed | src/reducers/session/index.js:7-24 | the initial state has an empty question store and an anonymous count of zero, so it meets the invariant the reducer keeps |
| SessionModel.ApplyPatch | src/reducers/session/index.js:41-42 | `{ ...state, ...payload }`: every field the payload holds takes the payload's value, and every other field keeps the state's value |
| SessionModel.ApplyPatchCompose | src/reducers/session/index.js:41-42 | two loads in a row equal one load of the union of their payloads, with the later payload winning on shared fields |
| SessionModel.ApplyPatchIdempotent | src/reducers/session/index.js:41-42 | loading the same payload twice equals loading it once |
| SessionModel.ApplyEmptyPatch | src/reducers/session/index.js:41-42 | loading an empty payload leaves the state unchanged |
| SessionModel.ApplyPatchWellFormed | src/reducers/session/index.js:41-42 | a load whose payload keeps questions under their own ids, with a non-negative anonymous count, keeps the state well-formed |
| Reducer.RoutePath | src/reducers/session/index.js:26 | the session route is `/session/` followed by the session id, and the id can be read back from it |
| Reducer.RoutePathInjective | src/reducers/session/index.js:26 | different sessions get different routes |
| Reducer.StoreQuestion | src/reducers/session/index.js:50 | after the update the question's id is present and maps to the question; every other key keeps its question and no other key appears |
| Reducer.WithLocked | src/reducers/session/index.js:47-48 | `session/lock` sets `locked` to true and changes no other field |
| Reducer.WithSocket | src/reducers/session/index.js:43-44 | `session/set_socket` stores the socket and changes no other field |
| Reducer.WithMe | src/reducers/session/index.js:45-46 | `session/set_self` stores the identity and changes no other field |
| Reducer.WithQuestion | src/reducers/session/index.js:49-54 | a question event stores the payload under its `questionId`; every other question and every other field is unchanged |
| Reducer.WithQuestioner | src/reducers/session/index.js:67-68 | `session/questioner_joined` makes the list one longer, keeps the earlier questioners in order and puts the new one last; no other field changes |
| Reducer.NextState | src/reducers/session/index.js:28-72 | each action changes only the fields in its footprint; create, join and rejoin give the initial state whatever came before; load overwrites the payload's fields; the three request actions and unknown actions return the state unchanged |
| Reducer.Effects | src/reducers/session/index.js:30-66 | create requests one effect; join and rejoin request a navigation to the session route, then a fetch; each request action emits one request that carries the current `state.id`; no other action requests anything |
| Reducer.ResetForgetsPriorState | src/reducers/session/index.js:30-40 | create, join and rejoin give the same new state and effects from any two prior states |
| Reducer.LockIdempotent | src/reducers/session/index.js:47-48 | locking twice equals locking once |
| Reducer.LockIsLoad | src/reducers/session/index.js:41-48 | locking equals loading the payload `{ locked: true }` |
| Reducer.QuestionEventIdempotent | src/reducers/session/index.js:49-54 | replaying a question event changes nothing further |
| Reducer.QuestionEventsCommute | src/reducers/session/index.js:49-54 | events about two different questions give the same state in either order |
| Reducer.QuestionEventLastWins | src/reducers/session/index.js:49-54 | of two events about the same question, only the later one matters |
| Reducer.ReducePreservesWellFormed | src/reducers/session/index.js:28-72 | every action keeps questions under their own ids and the anonymous count non-negative, given a well-formed payload for load |
| SessionInfo.NamedQuestioners | src/reducers/session/index.js:172 | the filter keeps exactly the named questioners, in their original order as a subsequence, and the kept count plus the anonymous count is the total |
| SessionInfo.IndexByLastWins | src/reducers/session/index.js:178 | every listed question's id is a key of the index, and each key holds the last listed question with that id |
| SessionInfo.IndexByKeys | src/reducers/session/index.js:178 | the keys of the index are exactly the ids of the listed questions |
| SessionInfo.IndexByWellKeyed | src/reducers/session/index.js:178 | every question in the index sits under its own `questionId` |
| SessionInfo.IndexByUnique | src/reducers/session/index.js:178 | when ids are distinct, each listed question is the one stored under its id |
| SessionInfo.ToSessionInfo | src/reducers/session/index.js:171-182 | id, name, locked and answerer come from the snapshot; kept questioners are all named, in input order, and none named is dropped; anonymous plus kept equals the total, so 0 ≤ anonymous ≤ total; the question index has exactly the snapshot's ids as keys, each holding the last snapshot question with that id |
| SessionInfo.AsPatch | src/reducers/session/index.js:173-181 | the load payload holds exactly the seven fields `toSessionInfo` returns |
| SessionInfo.LoadInfo | src/reducers/session/index.js:41-42 | loading that payload sets the seven session fields and keeps `loading`, `me` and `socket` |
| Messages.HandleMessage | src/reducers/session/index.js:154-169 | the six tags map to load of the snapshot info, lock, the three question actions carrying `message.question`, and questioner-joined; only an unknown tag gives no action |
| Messages.MessagesRequestNothing | src/reducers/session/index.js:154-169 | no action produced from a socket message requests a side effect |
| Messages.SnapshotLoad | src/reducers/session/index.js:156-157 | after a snapshot, the state's session fields come from it; its questions are the snapshot's index by id and its questioners the snapshot's named questioners in order; the anonymous count is the number of unnamed snapshot questioners, so anonymous plus named equals the total; only the seven session fields changed |
| Messages.SnapshotForgetsPriorSession | src/reducers/session/index.js:156-157 | after a snapshot, the prior state shows only in `loading`, `me` and `socket` |
| Messages.ApplyMessagePreservesWellFormed | src/reducers/session/index.js:154-169 | no single socket message breaks the question index or makes the anonymous count negative |
| Messages.ApplyMessagesPreservesWellFormed | src/reducers/session/index.js:140-150 | a whole stream of socket messages keeps the state well-formed |
| Messages.ApplyMessagesKeepConnection | src/reducers/session/index.js:154-169 | no stream of socket messages changes `me`, `socket` or `loading` |
| SelfIdentity.SetSelfQuestioner | src/reducers/session/index.js:132-134 | a set-self action with the questioner role and the questioner's id and name |
| SelfIdentity.SetSelfAnswerer | src/reducers/session/index.js:136-138 | a set-self action with the answerer role and the answerer's id and name |
| SelfIdentity.ChooseSelf | src/reducers/session/index.js:123-127 | an identity is chosen exactly when `Left` or `Right` is present; `Left` wins and gives the answerer's role, id and name; otherwise `Right` gives the questioner's role, id and name |
| SelfIdentity.RejoinDispatches | src/reducers/session/index.js:122-129 | the continuation dispatches the chosen identity first when there is one, then always the socket last |
| SelfIdentity.RejoinOutcome | src/reducers/session/index.js:119-130 | the continuation requests no effect, changes only `me` and `socket`, stores the socket, and sets `me` from `Left` or `Right`, or leaves it when neither is present |
| SelfIdentity.RejoinFlow | src/reducers/session/index.js:37-40 | rejoin followed by its continuation gives the initial state plus `me` and `socket`, from any prior state, and requests navigation then the fetch |

## Left out

- HTTP requests are not modelled: `fetch`, `Headers` and the JSON request bodies of `joinRequest`, `whoAmIRequest`, `askQuestionRequest`, `upvoteQuestionRequest`, `answerQuestionRequest` and `createSessionRequest`. This is network I/O, and each appears only as an abstract `Effect` descriptor.
- `openSessionSocket` and `parseMessage` are not modelled. They are the WebSocket lifecycle and `JSON.parse`, foreign runtime facilities. Messages arrive already parsed as `Messages.Message`, and the socket is an opaque token.
- The promise chains inside `joinAndFetchSession`, `rejoinAndFetchSession` and `createAndJoinSession` are asynchronous callbacks and are not modelled. Only the rejoin continuation's dispatch list is modelled, as a pure function of the server's answer and the opened socket.
- The `push(...)` router action and the `action(...)` creator come from libraries not shown. The model does not cover them. A navigation is the `Navigate(path)` effect.
- The exported action creators (`joinSession`, `rejoinSession`, `askQuestion`, `upvoteQuestion`, `answerQuestion`, `createSession`) are not modelled separately. Each builds one constructor of `Reducer.Action`.
- A JavaScript payload may carry keys that are not state fields, and the spread would copy them into the state. A `Patch` can only hold the ten state fields.
- The reducer's `state=initialState` default argument is not modelled. Callers pass `SessionModel.Initial` explicitly.
- The dashboard view components are not modelled. They only render and forward intents.
