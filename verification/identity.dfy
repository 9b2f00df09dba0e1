/** `setSelfQuestioner`, `setSelfAnswerer`, and the choice the rejoin
    continuation makes on the server's `/me` answer: `Left` is an answerer,
    `Right` a questioner, and the socket is attached either way. */
module SelfIdentity {
  import opened SessionModel
  import opened Reducer

  /** `setSelfQuestioner(q)`: become questioner `q`. */
  function SetSelfQuestioner(q: Questioner): (a: Action)
    ensures a.SetSelf?
    ensures a.me.role == Some(QuestionerRole)
    ensures a.me.id == Some(q.questionerId) && a.me.name == q.name
  {
    SetSelf(Identity(q.name, Some(QuestionerRole), Some(q.questionerId)))
  }

  /** `setSelfAnswerer(x)`: become answerer `x`. */
  function SetSelfAnswerer(x: Answerer): (a: Action)
    ensures a.SetSelf?
    ensures a.me.role == Some(AnswererRole)
    ensures a.me.id == x.answererId && a.me.name == x.name
  {
    SetSelf(Identity(x.name, Some(AnswererRole), x.answererId))
  }

  /** The `/me` answer: an object that may hold a `Left` answerer and a `Right` questioner. */
  datatype WhoAmI = WhoAmI(left: Option<Answerer>, right: Option<Questioner>)

  /** The identity action the rejoin continuation dispatches, if any; `Left` is tested first. */
  function ChooseSelf(me: WhoAmI): (r: Option<Action>)
    ensures r.Some? <==> me.left.Some? || me.right.Some?
    ensures r.Some? ==> r.value.SetSelf?
    ensures me.left.Some? ==>
      && r.value.me.role == Some(AnswererRole)
      && r.value.me.id == me.left.value.answererId
      && r.value.me.name == me.left.value.name
    ensures me.left.None? && me.right.Some? ==>
      && r.value.me.role == Some(QuestionerRole)
      && r.value.me.id == Some(me.right.value.questionerId)
      && r.value.me.name == me.right.value.name
  {
    if me.left.Some? then Some(SetSelfAnswerer(me.left.value))
    else if me.right.Some? then Some(SetSelfQuestioner(me.right.value))
    else None
  }

  /** Everything the rejoin continuation dispatches: the chosen identity, then the socket. */
  function RejoinDispatches(me: WhoAmI, sock: Socket): (r: seq<Action>)
    ensures 1 <= |r| <= 2
    ensures r[|r| - 1] == SetSocket(sock)
    ensures |r| == 2 <==> ChooseSelf(me).Some?
    ensures |r| == 2 ==> r[0] == ChooseSelf(me).value
  {
    match ChooseSelf(me)
    case Some(a) => [a, SetSocket(sock)]
    case None => [SetSocket(sock)]
  }

  /** The continuation changes only `me` and `socket`, and `me` reflects the server's answer. */
  lemma RejoinOutcome(s: State, me: WhoAmI, sock: Socket)
    ensures ReduceAll(s, RejoinDispatches(me, sock)).effects == []
    ensures ReduceAll(s, RejoinDispatches(me, sock)).state.socket == Some(sock)
    ensures OnlyChanged(s, ReduceAll(s, RejoinDispatches(me, sock)).state, {MeKey, SocketKey})
    ensures me.left.Some? ==>
      var t := ReduceAll(s, RejoinDispatches(me, sock)).state;
      t.me == Identity(me.left.value.name, Some(AnswererRole), me.left.value.answererId)
    ensures me.left.None? && me.right.Some? ==>
      var t := ReduceAll(s, RejoinDispatches(me, sock)).state;
      t.me == Identity(me.right.value.name, Some(QuestionerRole), Some(me.right.value.questionerId))
    ensures me.left.None? && me.right.None? ==> ReduceAll(s, RejoinDispatches(me, sock)).state.me == s.me
  {
    match ChooseSelf(me)
    case Some(a) =>
      ReduceAllPair(s, a, SetSocket(sock));
    case None =>
      ReduceAllSingle(s, SetSocket(sock));
  }

  /** Rejoining, then the continuation: a fresh session whose only known fields are me and the socket. */
  lemma RejoinFlow(s: State, sid: SessionId, me: WhoAmI, sock: Socket)
    ensures ReduceAll(s, [Rejoin(sid)] + RejoinDispatches(me, sock)).state
      == Initial.(me := ReduceAll(Initial, RejoinDispatches(me, sock)).state.me, socket := Some(sock))
    ensures ReduceAll(s, [Rejoin(sid)] + RejoinDispatches(me, sock)).effects
      == [Navigate(RoutePath(sid)), RejoinAndFetch(sid)]
  {
    var ds := RejoinDispatches(me, sock);
    ReduceAllAppend(s, [Rejoin(sid)], ds);
    ReduceAllSingle(s, Rejoin(sid));
    RejoinOutcome(Initial, me, sock);
    OnlyMeAndSocketChanged(Initial, ReduceAll(Initial, ds).state);
  }
}
