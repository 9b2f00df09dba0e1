/** `handleMessage`: the six tagged socket messages translated into reducer
    actions, and the state that a stream of such messages folds into. */
module Messages {
  import opened SessionModel
  import opened SessionInfo
  import Reducer

  /** An already-parsed socket message, by its `tag`. */
  datatype Message =
    | SessionState(session: Snapshot)
    | SessionLocked
    | QuestionAsked(question: Question)
    | QuestionUpvoted(question: Question)
    | QuestionAnswered(question: Question)
    | QuestionerJoined(questioner: Questioner)
    | UnknownTag(tag: string)

  /** The action for a message; an unknown tag falls off the end of the switch and gives none. */
  function HandleMessage(m: Message): (r: Option<Reducer.Action>)
    ensures r.None? <==> m.UnknownTag?
    ensures m.SessionState? ==> r == Some(Reducer.Load(AsPatch(ToSessionInfo(m.session))))
    ensures m.SessionLocked? ==> r == Some(Reducer.Lock)
    ensures m.QuestionAsked? ==> r == Some(Reducer.QuestionAsked(m.question))
    ensures m.QuestionUpvoted? ==> r == Some(Reducer.QuestionUpvoted(m.question))
    ensures m.QuestionAnswered? ==> r == Some(Reducer.QuestionAnswered(m.question))
    ensures m.QuestionerJoined? ==> r == Some(Reducer.QuestionerJoined(m.questioner))
  {
    match m
    case SessionState(snap) => Some(Reducer.Load(AsPatch(ToSessionInfo(snap))))
    case SessionLocked => Some(Reducer.Lock)
    case QuestionAsked(q) => Some(Reducer.QuestionAsked(q))
    case QuestionUpvoted(q) => Some(Reducer.QuestionUpvoted(q))
    case QuestionAnswered(q) => Some(Reducer.QuestionAnswered(q))
    case QuestionerJoined(q) => Some(Reducer.QuestionerJoined(q))
    case UnknownTag(_) => None
  }

  /** The state after one message is dispatched; a message without an action leaves it alone. */
  function ApplyMessage(s: State, m: Message): State {
    match HandleMessage(m)
    case None => s
    case Some(a) => Reducer.Reduce(s, a).state
  }

  /** The state after a stream of messages, in arrival order. */
  function ApplyMessages(s: State, ms: seq<Message>): State
    decreases |ms|
  {
    if |ms| == 0 then s else ApplyMessages(ApplyMessage(s, ms[0]), ms[1..])
  }

  /** Socket messages only patch state: their actions never request a side effect. */
  lemma MessagesRequestNothing(s: State, m: Message)
    ensures HandleMessage(m).Some? ==> Reducer.Reduce(s, HandleMessage(m).value).effects == []
  {
  }

  /** A snapshot sets the session's own fields from the server and keeps who we are and the socket. */
  lemma SnapshotLoad(s: State, snap: Snapshot)
    ensures ApplyMessage(s, SessionState(snap)).id == Some(snap.session.sessionId)
    ensures ApplyMessage(s, SessionState(snap)).name == Some(snap.session.name)
    ensures ApplyMessage(s, SessionState(snap)).locked == Some(snap.session.locked)
    ensures ApplyMessage(s, SessionState(snap)).answerer == snap.answerer
    ensures forall i :: 0 <= i < |snap.questions| ==>
      snap.questions[i].questionId in ApplyMessage(s, SessionState(snap)).questions
    ensures WellKeyed(ApplyMessage(s, SessionState(snap)).questions)
    ensures ApplyMessage(s, SessionState(snap)).questions == ToSessionInfo(snap).questions
    ensures ApplyMessage(s, SessionState(snap)).questioners == ToSessionInfo(snap).questioners
    ensures ApplyMessage(s, SessionState(snap)).anonymousQuestioners == CountAnonymous(snap.questioners)
    ensures ApplyMessage(s, SessionState(snap)).anonymousQuestioners
      + |ApplyMessage(s, SessionState(snap)).questioners| == |snap.questioners|
    ensures OnlyChanged(s, ApplyMessage(s, SessionState(snap)), {IdKey, NameKey, LockedKey, AnswererKey, QuestionsKey, QuestionersKey, AnonymousKey})
  {
    LoadInfo(s, ToSessionInfo(snap));
  }

  /** A snapshot replaces the session wholesale: what came before shows only in loading, me and socket. */
  lemma SnapshotForgetsPriorSession(s1: State, s2: State, snap: Snapshot)
    ensures ApplyMessage(s1, SessionState(snap)).(loading := s2.loading, me := s2.me, socket := s2.socket)
      == ApplyMessage(s2, SessionState(snap))
  {
    LoadInfo(s1, ToSessionInfo(snap));
    LoadInfo(s2, ToSessionInfo(snap));
  }

  /** No message breaks the question index or makes the anonymous count negative. */
  lemma ApplyMessagePreservesWellFormed(s: State, m: Message)
    requires WellFormed(s)
    ensures WellFormed(ApplyMessage(s, m))
  {
    if m.SessionState? {
      LoadInfo(s, ToSessionInfo(m.session));
    } else if HandleMessage(m).Some? {
      Reducer.ReducePreservesWellFormed(s, HandleMessage(m).value);
    }
  }

  lemma {:induction false} ApplyMessagesPreservesWellFormed(s: State, ms: seq<Message>)
    requires WellFormed(s)
    ensures WellFormed(ApplyMessages(s, ms))
    decreases |ms|
  {
    if |ms| > 0 {
      ApplyMessagePreservesWellFormed(s, ms[0]);
      ApplyMessagesPreservesWellFormed(ApplyMessage(s, ms[0]), ms[1..]);
    }
  }

  /** The server cannot change who this client is, its socket, or the loading flag. */
  lemma {:induction false} ApplyMessagesKeepConnection(s: State, ms: seq<Message>)
    ensures ApplyMessages(s, ms).me == s.me
    ensures ApplyMessages(s, ms).socket == s.socket
    ensures ApplyMessages(s, ms).loading == s.loading
    decreases |ms|
  {
    if |ms| > 0 {
      var t := ApplyMessage(s, ms[0]);
      if ms[0].SessionState? {
        LoadInfo(s, ToSessionInfo(ms[0].session));
      } else if HandleMessage(ms[0]).Some? {
        var a := HandleMessage(ms[0]).value;
        assert Get(t, MeKey) == Get(s, MeKey) && Get(t, SocketKey) == Get(s, SocketKey) && Get(t, LoadingKey) == Get(s, LoadingKey) by {
          assert OnlyChanged(s, t, Reducer.Footprint(a));
        }
      }
      ApplyMessagesKeepConnection(t, ms[1..]);
    }
  }
}
