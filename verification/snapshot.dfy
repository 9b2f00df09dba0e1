/** `toSessionInfo`: a full server snapshot of a session turned into the
    payload of a `session/load` action. Questioners without a name are
    dropped and counted as anonymous; questions are indexed by `questionId`. */
module SessionInfo {
  import opened SessionModel

  /** The session header of a snapshot. */
  datatype SessionHeader = SessionHeader(sessionId: SessionId, name: string, locked: bool)

  /** The `session` object of a `SessionState` message. */
  datatype Snapshot = Snapshot(
    session: SessionHeader,
    answerer: Answerer,
    questioners: seq<Questioner>,
    questions: seq<Question>)

  /** `xs` is `ys` with some elements left out, order kept. */
  predicate IsSubsequence<T(==)>(xs: seq<T>, ys: seq<T>)
    decreases |ys|
  {
    if |xs| == 0 then true
    else if |ys| == 0 then false
    else (xs[0] == ys[0] && IsSubsequence(xs[1..], ys[1..])) || IsSubsequence(xs, ys[1..])
  }

  /** The name is neither null nor undefined. */
  predicate Named(q: Questioner) {
    q.name.Some?
  }

  /** How many questioners have no name. */
  function CountAnonymous(qs: seq<Questioner>): nat {
    if |qs| == 0 then 0
    else (if Named(qs[0]) then 0 else 1) + CountAnonymous(qs[1..])
  }

  /** `filter(compose(not, isNil, prop('name')), questioners)`. */
  function NamedQuestioners(qs: seq<Questioner>): (r: seq<Questioner>)
    ensures forall i :: 0 <= i < |r| ==> Named(r[i])
    ensures forall q :: q in r <==> q in qs && Named(q)
    ensures IsSubsequence(r, qs)
    ensures |r| + CountAnonymous(qs) == |qs|
  {
    if |qs| == 0 then []
    else
      var rest := NamedQuestioners(qs[1..]);
      if Named(qs[0]) then
        assert ([qs[0]] + rest)[1..] == rest;
        [qs[0]] + rest
      else
        rest
  }

  /** `qs[i]` is the last question in `qs` carrying id `k`. */
  predicate IsLastWith(qs: seq<Question>, i: int, k: QuestionId) {
    && 0 <= i < |qs|
    && qs[i].questionId == k
    && forall j :: i < j < |qs| ==> qs[j].questionId != k
  }

  /** `indexBy(prop('questionId'), questions)`: each question under its id, later ones winning. */
  function IndexBy(qs: seq<Question>): map<QuestionId, Question>
    decreases |qs|
  {
    if |qs| == 0 then map[]
    else
      var n := |qs| - 1;
      IndexBy(qs[..n])[qs[n].questionId := qs[n]]
  }

  /** Every question's id is a key of the index, and each key holds the last question with that id. */
  lemma {:induction false} IndexByLastWins(qs: seq<Question>)
    ensures forall i :: 0 <= i < |qs| ==> qs[i].questionId in IndexBy(qs)
    ensures forall k :: k in IndexBy(qs) ==> exists i :: IsLastWith(qs, i, k) && IndexBy(qs)[k] == qs[i]
    decreases |qs|
  {
    if |qs| > 0 {
      var n := |qs| - 1;
      var front := qs[..n];
      var prefix := IndexBy(front);
      var r := IndexBy(qs);
      IndexByLastWins(front);
      assert r == prefix[qs[n].questionId := qs[n]];
      forall i | 0 <= i < |qs|
        ensures qs[i].questionId in r
      {
        if i < n {
          assert front[i] == qs[i];
        }
      }
      forall k | k in r
        ensures exists i :: IsLastWith(qs, i, k) && r[k] == qs[i]
      {
        if k == qs[n].questionId {
          assert IsLastWith(qs, n, k);
        } else {
          var i :| IsLastWith(front, i, k) && prefix[k] == front[i];
          assert IsLastWith(qs, i, k);
        }
      }
    }
  }

  /** Only ids of listed questions are keys of the index. */
  lemma IndexByKeys(qs: seq<Question>)
    ensures forall k :: k in IndexBy(qs) <==> exists i :: 0 <= i < |qs| && qs[i].questionId == k
  {
    IndexByLastWins(qs);
  }

  /** The index keeps every question under its own id. */
  lemma IndexByWellKeyed(qs: seq<Question>)
    ensures WellKeyed(IndexBy(qs))
  {
    IndexByLastWins(qs);
    var r := IndexBy(qs);
    forall k | k in r
      ensures r[k].questionId == k
    {
      var i :| IsLastWith(qs, i, k) && r[k] == qs[i];
    }
  }

  /** Ids all different. */
  predicate UniqueIds(qs: seq<Question>) {
    forall i, j :: 0 <= i < j < |qs| ==> qs[i].questionId != qs[j].questionId
  }

  /** With unique ids, every question of the list is found under its id. */
  lemma IndexByUnique(qs: seq<Question>)
    requires UniqueIds(qs)
    ensures forall i :: 0 <= i < |qs| ==> qs[i].questionId in IndexBy(qs) && IndexBy(qs)[qs[i].questionId] == qs[i]
  {
    IndexByLastWins(qs);
    var r := IndexBy(qs);
    forall i | 0 <= i < |qs|
      ensures qs[i].questionId in r && r[qs[i].questionId] == qs[i]
    {
      var k := qs[i].questionId;
      var j :| IsLastWith(qs, j, k) && r[k] == qs[j];
      assert i == j;
    }
  }

  /** The fields `toSessionInfo` returns. */
  datatype Info = Info(
    id: SessionId,
    name: string,
    locked: bool,
    answerer: Answerer,
    questions: map<QuestionId, Question>,
    questioners: seq<Questioner>,
    anonymousQuestioners: int)

  /** `toSessionInfo(snapshot)`. */
  function ToSessionInfo(snap: Snapshot): (info: Info)
    ensures info.id == snap.session.sessionId
    ensures info.name == snap.session.name
    ensures info.locked == snap.session.locked
    ensures info.answerer == snap.answerer
    // the kept questioners: all named, in their original order, none named left out
    ensures forall i :: 0 <= i < |info.questioners| ==> Named(info.questioners[i])
    ensures forall q :: q in snap.questioners && Named(q) ==> q in info.questioners
    ensures IsSubsequence(info.questioners, snap.questioners)
    // named plus anonymous is everyone
    ensures info.anonymousQuestioners + |info.questioners| == |snap.questioners|
    ensures info.anonymousQuestioners == CountAnonymous(snap.questioners)
    ensures 0 <= info.anonymousQuestioners <= |snap.questioners|
    // every question is found under its id, and each key holds a question with that id
    ensures forall i :: 0 <= i < |snap.questions| ==> snap.questions[i].questionId in info.questions
    ensures forall k :: k in info.questions <==> exists i :: 0 <= i < |snap.questions| && snap.questions[i].questionId == k
    ensures forall k :: k in info.questions ==>
      exists i :: IsLastWith(snap.questions, i, k) && info.questions[k] == snap.questions[i]
    ensures WellKeyed(info.questions)
  {
    var named := NamedQuestioners(snap.questioners);
    IndexByLastWins(snap.questions);
    IndexByWellKeyed(snap.questions);
    Info(
      snap.session.sessionId,
      snap.session.name,
      snap.session.locked,
      snap.answerer,
      IndexBy(snap.questions),
      named,
      |snap.questioners| - |named|)
  }

  /** The `session/load` payload object holding exactly the seven returned fields. */
  function AsPatch(info: Info): (p: Patch)
    ensures p.Keys == {IdKey, NameKey, LockedKey, AnswererKey, QuestionsKey, QuestionersKey, AnonymousKey}
  {
    map[
      IdKey := IdValue(Some(info.id)),
      NameKey := NameValue(Some(info.name)),
      LockedKey := LockedValue(Some(info.locked)),
      AnswererKey := AnswererValue(info.answerer),
      QuestionsKey := QuestionsValue(info.questions),
      QuestionersKey := QuestionersValue(info.questioners),
      AnonymousKey := AnonymousValue(info.anonymousQuestioners)]
  }

  /** Loading the payload sets the seven fields from the snapshot and keeps loading, me and socket. */
  lemma LoadInfo(s: State, info: Info)
    ensures ApplyPatch(s, AsPatch(info)) ==
      s.(id := Some(info.id), name := Some(info.name), locked := Some(info.locked),
         answerer := info.answerer, questions := info.questions,
         questioners := info.questioners, anonymousQuestioners := info.anonymousQuestioners)
  {
    var p := AsPatch(info);
    var t := ApplyPatch(s, p);
    assert Get(t, IdKey) == p[IdKey];
    assert Get(t, NameKey) == p[NameKey];
    assert Get(t, LockedKey) == p[LockedKey];
    assert Get(t, AnswererKey) == p[AnswererKey];
    assert Get(t, QuestionsKey) == p[QuestionsKey];
    assert Get(t, QuestionersKey) == p[QuestionersKey];
    assert Get(t, AnonymousKey) == p[AnonymousKey];
    assert Get(t, LoadingKey) == Get(s, LoadingKey);
    assert Get(t, MeKey) == Get(s, MeKey);
    assert Get(t, SocketKey) == Get(s, SocketKey);
  }
}
