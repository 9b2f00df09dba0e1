/** The session state record of the Q&A client, and the object-spread update
    `{ ...state, ...payload }` that every updating branch of the session reducer uses.

    JavaScript `null` is `None`. A payload object is a map from field keys to
    field values, so spreading it over the state overwrites exactly the keys it
    holds and keeps every other field. */
module SessionModel {

  datatype Option<T> = None | Some(value: T)

  type SessionId = string
  type QuestionId = int
  type QuestionerId = int
  type AnswererId = int

  /** A question as the server reports it: its key, text, upvote count and answered flag. */
  datatype Question = Question(questionId: QuestionId, text: string, votes: int, answered: bool)

  /** A questioner; the server sends a null name for an anonymous one. */
  datatype Questioner = Questioner(questionerId: QuestionerId, name: Option<string>)

  /** The session owner. The initial state has no id for it, hence the option. */
  datatype Answerer = Answerer(answererId: Option<AnswererId>, name: Option<string>)

  /** The two participant kinds (`QUESTIONER` and `ANSWERER`). */
  datatype Role = QuestionerRole | AnswererRole

  /** Who this client is (`state.me`); `role` is the JavaScript record's `type` field. */
  datatype Identity = Identity(name: Option<string>, role: Option<Role>, id: Option<int>)

  /** The open socket, kept in state only so it stays alive; an opaque token here. */
  datatype Socket = Socket(handle: nat)

  datatype State = State(
    id: Option<SessionId>,
    name: Option<string>,
    locked: Option<bool>,
    loading: bool,
    me: Identity,
    socket: Option<Socket>,
    answerer: Answerer,
    questioners: seq<Questioner>,
    anonymousQuestioners: int,
    questions: map<QuestionId, Question>)

  /** `initialState`: nothing known yet, loading, no questioners, no questions. */
  const Initial: State :=
    State(None, None, None, true, Identity(None, None, None), None, Answerer(None, None), [], 0, map[])

  /** The ten field names of the state record. */
  datatype Key =
    | IdKey | NameKey | LockedKey | LoadingKey | MeKey
    | SocketKey | AnswererKey | QuestionersKey | AnonymousKey | QuestionsKey

  /** A value stored under one field name. */
  datatype Value =
    | IdValue(id: Option<SessionId>)
    | NameValue(name: Option<string>)
    | LockedValue(locked: Option<bool>)
    | LoadingValue(loading: bool)
    | MeValue(me: Identity)
    | SocketValue(socket: Option<Socket>)
    | AnswererValue(answerer: Answerer)
    | QuestionersValue(questioners: seq<Questioner>)
    | AnonymousValue(count: int)
    | QuestionsValue(questions: map<QuestionId, Question>)

  /** The field a value belongs to. */
  function KeyOf(v: Value): Key {
    match v
    case IdValue(_) => IdKey
    case NameValue(_) => NameKey
    case LockedValue(_) => LockedKey
    case LoadingValue(_) => LoadingKey
    case MeValue(_) => MeKey
    case SocketValue(_) => SocketKey
    case AnswererValue(_) => AnswererKey
    case QuestionersValue(_) => QuestionersKey
    case AnonymousValue(_) => AnonymousKey
    case QuestionsValue(_) => QuestionsKey
  }

  /** Reads one field of the state (`state[k]`). */
  function Get(s: State, k: Key): (v: Value)
    ensures KeyOf(v) == k
  {
    match k
    case IdKey => IdValue(s.id)
    case NameKey => NameValue(s.name)
    case LockedKey => LockedValue(s.locked)
    case LoadingKey => LoadingValue(s.loading)
    case MeKey => MeValue(s.me)
    case SocketKey => SocketValue(s.socket)
    case AnswererKey => AnswererValue(s.answerer)
    case QuestionersKey => QuestionersValue(s.questioners)
    case AnonymousKey => AnonymousValue(s.anonymousQuestioners)
    case QuestionsKey => QuestionsValue(s.questions)
  }

  /** Every value in the payload sits under its own field name. */
  predicate WellTyped(p: map<Key, Value>) {
    forall k :: k in p ==> KeyOf(p[k]) == k
  }

  /** A payload object: some of the state's fields, each with a value of its type. */
  type Patch = p: map<Key, Value> | WellTyped(p) witness map[]

  /** The value field `k` has after spreading `p` over `s`. */
  function Lookup(s: State, p: Patch, k: Key): (v: Value)
    ensures KeyOf(v) == k
  {
    if k in p then p[k] else Get(s, k)
  }

  /** `{ ...s, ...p }`: the fields `p` holds are taken from `p`, all others from `s`. */
  function ApplyPatch(s: State, p: Patch): (t: State)
    ensures forall k :: k in p ==> Get(t, k) == p[k]
    ensures forall k :: k !in p ==> Get(t, k) == Get(s, k)
  {
    State(
      Lookup(s, p, IdKey).id,
      Lookup(s, p, NameKey).name,
      Lookup(s, p, LockedKey).locked,
      Lookup(s, p, LoadingKey).loading,
      Lookup(s, p, MeKey).me,
      Lookup(s, p, SocketKey).socket,
      Lookup(s, p, AnswererKey).answerer,
      Lookup(s, p, QuestionersKey).questioners,
      Lookup(s, p, AnonymousKey).count,
      Lookup(s, p, QuestionsKey).questions)
  }

  /** `s` and `t` agree on every field outside `keys`. */
  predicate OnlyChanged(s: State, t: State, keys: set<Key>) {
    forall k :: k !in keys ==> Get(s, k) == Get(t, k)
  }

  /** Two states that agree on every field are the same state. */
  lemma StateExtensionality(s: State, t: State)
    requires forall k :: Get(s, k) == Get(t, k)
    ensures s == t
  {
    assert Get(s, IdKey) == Get(t, IdKey);
    assert Get(s, NameKey) == Get(t, NameKey);
    assert Get(s, LockedKey) == Get(t, LockedKey);
    assert Get(s, LoadingKey) == Get(t, LoadingKey);
    assert Get(s, MeKey) == Get(t, MeKey);
    assert Get(s, SocketKey) == Get(t, SocketKey);
    assert Get(s, AnswererKey) == Get(t, AnswererKey);
    assert Get(s, QuestionersKey) == Get(t, QuestionersKey);
    assert Get(s, AnonymousKey) == Get(t, AnonymousKey);
    assert Get(s, QuestionsKey) == Get(t, QuestionsKey);
  }

  /** A state that differs from `s` at most in `me` and `socket` is `s` with those two replaced. */
  lemma OnlyMeAndSocketChanged(s: State, t: State)
    requires OnlyChanged(s, t, {MeKey, SocketKey})
    ensures t == s.(me := t.me, socket := t.socket)
  {
    var u := s.(me := t.me, socket := t.socket);
    forall k
      ensures Get(t, k) == Get(u, k)
    {
      if k != MeKey && k != SocketKey {
        assert Get(t, k) == Get(s, k);
      }
    }
    StateExtensionality(t, u);
  }

  /** Spreading two payloads in turn is spreading their union, the later one winning. */
  lemma ApplyPatchCompose(s: State, p1: Patch, p2: Patch)
    ensures WellTyped(p1 + p2)
    ensures ApplyPatch(ApplyPatch(s, p1), p2) == ApplyPatch(s, p1 + p2)
  {
    var u: Patch := p1 + p2;
    StateExtensionality(ApplyPatch(ApplyPatch(s, p1), p2), ApplyPatch(s, u));
  }

  /** Spreading the same payload twice is spreading it once. */
  lemma ApplyPatchIdempotent(s: State, p: Patch)
    ensures ApplyPatch(ApplyPatch(s, p), p) == ApplyPatch(s, p)
  {
    StateExtensionality(ApplyPatch(ApplyPatch(s, p), p), ApplyPatch(s, p));
  }

  /** Spreading an empty payload leaves the state as it was. */
  lemma ApplyEmptyPatch(s: State)
    ensures ApplyPatch(s, map[]) == s
  {
    StateExtensionality(ApplyPatch(s, map[]), s);
  }

  /** Every stored question sits under its own `questionId`. */
  predicate WellKeyed(qs: map<QuestionId, Question>) {
    forall k :: k in qs ==> qs[k].questionId == k
  }

  /** The invariant the reducer keeps: questions keyed by id, a non-negative anonymous count. */
  predicate WellFormed(s: State) {
    WellKeyed(s.questions) && s.anonymousQuestioners >= 0
  }

  /** A payload that, spread over a well-formed state, keeps it well-formed. */
  predicate WellFormedPatch(p: Patch) {
    && (QuestionsKey in p ==> WellKeyed(p[QuestionsKey].questions))
    && (AnonymousKey in p ==> p[AnonymousKey].count >= 0)
  }

  lemma InitialWellFormed()
    ensures WellFormed(Initial)
  {
  }

  lemma ApplyPatchWellFormed(s: State, p: Patch)
    requires WellFormed(s) && WellFormedPatch(p)
    ensures WellFormed(ApplyPatch(s, p))
  {
    var t := ApplyPatch(s, p);
    assert Get(t, QuestionsKey) == (if QuestionsKey in p then p[QuestionsKey] else Get(s, QuestionsKey));
    assert Get(t, AnonymousKey) == (if AnonymousKey in p then p[AnonymousKey] else Get(s, AnonymousKey));
  }
}
