/** The `session` reducer: one tagged action folded into the session state.

    The reducer's `action.sideEffect(...)` calls become a list of effect
    descriptors returned beside the new state; what the effects do over HTTP
    is not modelled. */
module Reducer {
  import opened SessionModel

  /** The actions the reducer distinguishes, by their `session/...` tag. */
  datatype Action =
    | Create(topic: string, answererName: string)
    | Join(sessionId: SessionId, questionerName: Option<string>)
    | Rejoin(sessionId: SessionId)
    | Load(patch: Patch)
    | SetSocket(socket: Socket)
    | SetSelf(me: Identity)
    | Lock
    | QuestionAsked(question: Question)
    | QuestionUpvoted(question: Question)
    | QuestionAnswered(question: Question)
    | AskQuestion(text: string)
    | UpvoteQuestion(questionId: QuestionId)
    | AnswerQuestion(questionId: QuestionId)
    | QuestionerJoined(questioner: Questioner)
    /** Any tag the reducer's `switch` does not list; it falls to the `default` branch. */
    | Unrecognised(tag: string)
  {
    /** The three server events that replace one question by its id. */
    predicate IsQuestionEvent() {
      QuestionAsked? || QuestionUpvoted? || QuestionAnswered?
    }

    /** The three intents that only issue a request. */
    predicate IsRequest() {
      AskQuestion? || UpvoteQuestion? || AnswerQuestion?
    }

    /** The three intents that start a session afresh. */
    predicate IsReset() {
      Create? || Join? || Rejoin?
    }
  }

  /** A side effect the reducer asks for. */
  datatype Effect =
    | Navigate(pathname: string)
    | CreateAndJoin(topic: string, answererName: string)
    | JoinAndFetch(sessionId: SessionId, questionerName: Option<string>)
    | RejoinAndFetch(sessionId: SessionId)
    | AskRequest(session: Option<SessionId>, text: string)
    | UpvoteRequest(session: Option<SessionId>, questionId: QuestionId)
    | AnswerRequest(session: Option<SessionId>, questionId: QuestionId)

  datatype Step = Step(state: State, effects: seq<Effect>)

  const SessionRoutePrefix: string := "/session/"

  /** `routeToSession`: the route of a session is the fixed prefix followed by its id. */
  function RoutePath(sid: SessionId): (path: string)
    ensures |path| == |SessionRoutePrefix| + |sid|
    ensures path[..|SessionRoutePrefix|] == SessionRoutePrefix
    ensures path[|SessionRoutePrefix|..] == sid
  {
    SessionRoutePrefix + sid
  }

  /** Distinct sessions have distinct routes. */
  lemma RoutePathInjective(a: SessionId, b: SessionId)
    ensures RoutePath(a) == RoutePath(b) ==> a == b
  {
    if RoutePath(a) == RoutePath(b) {
      assert a == RoutePath(a)[|SessionRoutePrefix|..];
    }
  }

  /** The question store after `q` replaces whatever was stored under its id. */
  function StoreQuestion(qs: map<QuestionId, Question>, q: Question): (r: map<QuestionId, Question>)
    ensures q.questionId in r && r[q.questionId] == q
    ensures r.Keys == qs.Keys + {q.questionId}
    ensures forall k :: k in qs && k != q.questionId ==> r[k] == qs[k]
  {
    qs[q.questionId := q]
  }

  /** `{ ...s, locked: true }` */
  function WithLocked(s: State): (t: State)
    ensures OnlyChanged(s, t, {LockedKey}) && t.locked == Some(true)
  {
    s.(locked := Some(true))
  }

  /** `{ ...s, socket }` */
  function WithSocket(s: State, sock: Socket): (t: State)
    ensures OnlyChanged(s, t, {SocketKey}) && t.socket == Some(sock)
  {
    s.(socket := Some(sock))
  }

  /** `{ ...s, me }` */
  function WithMe(s: State, me: Identity): (t: State)
    ensures OnlyChanged(s, t, {MeKey}) && t.me == me
  {
    s.(me := me)
  }

  /** `{ ...s, questions: { ...s.questions, [q.questionId]: q } }` */
  function WithQuestion(s: State, q: Question): (t: State)
    ensures OnlyChanged(s, t, {QuestionsKey})
    ensures t.questions.Keys == s.questions.Keys + {q.questionId}
    ensures t.questions[q.questionId] == q
    ensures forall k :: k in s.questions && k != q.questionId ==> t.questions[k] == s.questions[k]
  {
    s.(questions := StoreQuestion(s.questions, q))
  }

  /** `{ ...s, questioners: [...s.questioners, q] }` */
  function WithQuestioner(s: State, q: Questioner): (t: State)
    ensures OnlyChanged(s, t, {QuestionersKey})
    ensures |t.questioners| == |s.questioners| + 1
    ensures t.questioners[..|s.questioners|] == s.questioners
    ensures t.questioners[|s.questioners|] == q
  {
    s.(questioners := s.questioners + [q])
  }

  /** The fields an action may touch; every other field survives it. */
  function Footprint(a: Action): set<Key> {
    match a
    case Create(_, _) => AllKeys
    case Join(_, _) => AllKeys
    case Rejoin(_) => AllKeys
    case Load(p) => p.Keys
    case SetSocket(_) => {SocketKey}
    case SetSelf(_) => {MeKey}
    case Lock => {LockedKey}
    case QuestionAsked(_) => {QuestionsKey}
    case QuestionUpvoted(_) => {QuestionsKey}
    case QuestionAnswered(_) => {QuestionsKey}
    case QuestionerJoined(_) => {QuestionersKey}
    case _ => {}
  }

  const AllKeys: set<Key> :=
    {IdKey, NameKey, LockedKey, LoadingKey, MeKey, SocketKey, AnswererKey, QuestionersKey, AnonymousKey, QuestionsKey}

  /** The state half of the reducer. */
  function NextState(s: State, a: Action): (t: State)
    ensures !a.IsReset() ==> OnlyChanged(s, t, Footprint(a))
    // create, join and rejoin forget the prior state entirely
    ensures a.IsReset() ==> t == Initial
    // load spreads its payload: present fields are overwritten
    ensures a.Load? ==> forall k :: k in a.patch ==> Get(t, k) == a.patch[k]
    // requests and unknown actions return the state object itself
    ensures a.IsRequest() || a.Unrecognised? ==> t == s
  {
    match a
    case Create(_, _) => Initial
    case Join(_, _) => Initial
    case Rejoin(_) => Initial
    case Load(p) => ApplyPatch(s, p)
    case SetSocket(sock) => WithSocket(s, sock)
    case SetSelf(me) => WithMe(s, me)
    case Lock => WithLocked(s)
    case QuestionAsked(q) => WithQuestion(s, q)
    case QuestionUpvoted(q) => WithQuestion(s, q)
    case QuestionAnswered(q) => WithQuestion(s, q)
    case QuestionerJoined(q) => WithQuestioner(s, q)
    case _ => s
  }

  /** The effects half of the reducer: what `action.sideEffect` is called with, in order. */
  function Effects(s: State, a: Action): (e: seq<Effect>)
    ensures a.Create? ==> e == [CreateAndJoin(a.topic, a.answererName)]
    // join and rejoin first navigate to the session's route, then fetch
    ensures a.Join? ==> e == [Navigate(RoutePath(a.sessionId)), JoinAndFetch(a.sessionId, a.questionerName)]
    ensures a.Rejoin? ==> e == [Navigate(RoutePath(a.sessionId)), RejoinAndFetch(a.sessionId)]
    // each request carries the current session id
    ensures a.AskQuestion? ==> e == [AskRequest(s.id, a.text)]
    ensures a.UpvoteQuestion? ==> e == [UpvoteRequest(s.id, a.questionId)]
    ensures a.AnswerQuestion? ==> e == [AnswerRequest(s.id, a.questionId)]
    // only intents ask for effects
    ensures e == [] <==> !(a.IsReset() || a.IsRequest())
  {
    match a
    case Create(topic, name) => [CreateAndJoin(topic, name)]
    case Join(sid, name) => [Navigate(RoutePath(sid)), JoinAndFetch(sid, name)]
    case Rejoin(sid) => [Navigate(RoutePath(sid)), RejoinAndFetch(sid)]
    case AskQuestion(text) => [AskRequest(s.id, text)]
    case UpvoteQuestion(qid) => [UpvoteRequest(s.id, qid)]
    case AnswerQuestion(qid) => [AnswerRequest(s.id, qid)]
    case _ => []
  }

  /** The `session` reducer: the new state and the effects it requested. */
  function Reduce(s: State, a: Action): Step {
    Step(NextState(s, a), Effects(s, a))
  }

  /** Folds a sequence of actions into a state, collecting the effects in order. */
  function ReduceAll(s: State, actions: seq<Action>): (r: Step)
    decreases |actions|
  {
    if |actions| == 0 then Step(s, [])
    else
      var first := Reduce(s, actions[0]);
      var rest := ReduceAll(first.state, actions[1..]);
      Step(rest.state, first.effects + rest.effects)
  }

  /** Folding one action is reducing it. */
  lemma ReduceAllSingle(s: State, a: Action)
    ensures ReduceAll(s, [a]) == Reduce(s, a)
  {
    assert [a][1..] == [];
  }

  /** Folding two actions is reducing them in turn. */
  lemma ReduceAllPair(s: State, a: Action, b: Action)
    ensures ReduceAll(s, [a, b]).state == Reduce(Reduce(s, a).state, b).state
    ensures ReduceAll(s, [a, b]).effects == Reduce(s, a).effects + Reduce(Reduce(s, a).state, b).effects
  {
    assert [a, b][1..] == [b];
    ReduceAllSingle(Reduce(s, a).state, b);
  }

  /** A reset action gives the same step whatever state it meets. */
  lemma ResetForgetsPriorState(s1: State, s2: State, a: Action)
    requires a.IsReset()
    ensures Reduce(s1, a) == Reduce(s2, a)
  {
  }

  /** Locking twice is locking once. */
  lemma LockIdempotent(s: State)
    ensures Reduce(Reduce(s, Lock).state, Lock) == Reduce(s, Lock)
  {
  }

  /** The payload `{ locked: true }`. */
  const LockedPatch: Patch := map[LockedKey := LockedValue(Some(true))]

  /** Locking is loading the payload `{ locked: true }`. */
  lemma LockIsLoad(s: State)
    ensures Reduce(s, Lock) == Reduce(s, Load(LockedPatch))
  {
    var t := ApplyPatch(s, LockedPatch);
    assert Lookup(s, LockedPatch, LockedKey) == LockedValue(Some(true));
    assert t.locked == Some(true);
    assert t == WithLocked(s);
  }

  /** Replaying the same question event changes nothing further. */
  lemma QuestionEventIdempotent(s: State, a: Action)
    requires a.IsQuestionEvent()
    ensures Reduce(Reduce(s, a).state, a) == Reduce(s, a)
  {
  }

  /** Question events about different questions may arrive in either order. */
  lemma QuestionEventsCommute(s: State, a: Action, b: Action)
    requires a.IsQuestionEvent() && b.IsQuestionEvent()
    requires a.question.questionId != b.question.questionId
    ensures Reduce(Reduce(s, a).state, b) == Reduce(Reduce(s, b).state, a)
  {
  }

  /** Of two events about the same question, the later one wins. */
  lemma QuestionEventLastWins(s: State, a: Action, b: Action)
    requires a.IsQuestionEvent() && b.IsQuestionEvent()
    requires a.question.questionId == b.question.questionId
    ensures Reduce(Reduce(s, a).state, b) == Reduce(s, b)
  {
  }

  /** Every action except a load with an ill-formed payload keeps the state well-formed. */
  lemma ReducePreservesWellFormed(s: State, a: Action)
    requires WellFormed(s)
    requires a.Load? ==> WellFormedPatch(a.patch)
    ensures WellFormed(Reduce(s, a).state)
  {
    if a.Load? {
      ApplyPatchWellFormed(s, a.patch);
    }
  }

  /** Folding actions one after another is folding their concatenation. */
  lemma {:induction false} ReduceAllAppend(s: State, xs: seq<Action>, ys: seq<Action>)
    ensures ReduceAll(s, xs + ys).state == ReduceAll(ReduceAll(s, xs).state, ys).state
    ensures ReduceAll(s, xs + ys).effects == ReduceAll(s, xs).effects + ReduceAll(ReduceAll(s, xs).state, ys).effects
    decreases |xs|
  {
    if |xs| == 0 {
      assert xs + ys == ys;
    } else {
      assert (xs + ys)[1..] == xs[1..] + ys;
      ReduceAllAppend(Reduce(s, xs[0]).state, xs[1..], ys);
    }
  }
}
