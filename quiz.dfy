/** The literacy quiz: answering the questions one by one, the final score, the pass
    rule, and submitting the result, or queuing it when it cannot be delivered. */
module Quiz {
  import opened Js
  import opened Browser
  import OfflineSync

  /** The index of the correct option of each question, in question order. */
  const ANSWER_KEY: seq<int> := [2, 1, 1]
  const MODULE_ID := "quiz_literacy_101"
  const PROGRESS_PATH := "/api/progress"

  /** The body `submitScore` sends. */
  datatype Progress = Progress(userId: int, moduleId: string, points: int, status: string,
                               score: int, totalQuestions: int)

  /** The payload for a final score: passing takes two correct answers, and only a pass earns
      points, ten per correct answer. */
  function ScorePayload(userId: int, finalScore: int, totalQuestions: int): (p: Progress)
    ensures p.status == "passed" <==> finalScore >= 2
    ensures p.status == "failed" <==> finalScore < 2
    ensures finalScore >= 2 ==> p.points == 10 * finalScore
    ensures finalScore < 2 ==> p.points == 0
    ensures p.points > 0 <==> p.status == "passed"
    ensures 0 <= finalScore <= totalQuestions ==> 0 <= p.points <= 10 * totalQuestions
    ensures p.userId == userId && p.moduleId == MODULE_ID
    ensures p.score == finalScore && p.totalQuestions == totalQuestions
  {
    var passed := finalScore >= 2;
    Progress(userId, MODULE_ID, if passed then finalScore * 10 else 0,
             if passed then "passed" else "failed", finalScore, totalQuestions)
  }

  function ToJson(p: Progress): Json
  {
    JObj([("user_id", JNum(p.userId)), ("module_id", JStr(p.moduleId)), ("points", JNum(p.points)),
          ("status", JStr(p.status)), ("score", JNum(p.score)), ("total_questions", JNum(p.totalQuestions))])
  }

  function ProgressRequest(token: Option<string>, body: Json): Request
  {
    Request(API_BASE_URL + PROGRESS_PATH, "POST", Bearer(token), body)
  }

  /** What `submitScore(finalScore)` leaves in the queue entry and which requests it sends.
      Reading `storedUser.id` on a missing user throws before anything is sent or queued. */
  function SubmitEffects(user: Option<User>, online: bool, token: Option<string>, slot: QueueSlot,
                         finalScore: int, fetchThrows: bool, id: string, timestamp: string,
                         writeFails: bool): (QueueSlot, seq<Request>)
  {
    if user.None? then (slot, [])
    else
      var body := ToJson(ScorePayload(user.value.id, finalScore, |ANSWER_KEY|));
      var queued := OfflineSync.Enqueued(slot, Action(id, PROGRESS_PATH, "POST", body, timestamp), writeFails);
      if !online then (queued, [])
      else ((if fetchThrows then queued else slot), [ProgressRequest(token, body)])
  }

  /** The result is sent exactly when online, and queued exactly when it could not be delivered:
      offline, or the request threw. A response of any status, ok or not, is never queued. */
  lemma QueuedOnlyWhenUndelivered(user: Option<User>, online: bool, token: Option<string>, slot: QueueSlot,
                                  finalScore: int, fetchThrows: bool, id: string, timestamp: string)
    requires user.Some? && !slot.Unreadable?
    ensures var (slot', sent) := SubmitEffects(user, online, token, slot, finalScore, fetchThrows, id, timestamp, false);
            var body := ToJson(ScorePayload(user.value.id, finalScore, |ANSWER_KEY|));
            && (sent == if online then [ProgressRequest(token, body)] else [])
            && (slot' != slot <==> !online || fetchThrows)
            && (slot' != slot ==>
                  OfflineSync.Pending(slot') == OfflineSync.Pending(slot) + [Action(id, PROGRESS_PATH, "POST", body, timestamp)])
  {
    var (slot', sent) := SubmitEffects(user, online, token, slot, finalScore, fetchThrows, id, timestamp, false);
    if slot' != slot {
      assert |OfflineSync.Pending(slot')| == |OfflineSync.Pending(slot)| + 1;
    }
  }

  class QuizSession {
    const device: Device
    var currentQuestion: nat
    var score: nat
    var showResult: bool

    /** The question on screen exists, and the score never exceeds the number of answers given. */
    ghost predicate Valid()
      reads this
    {
      && currentQuestion < |ANSWER_KEY|
      && (showResult ==> currentQuestion == |ANSWER_KEY| - 1)
      && score <= currentQuestion + (if showResult then 1 else 0)
    }

    constructor (device: Device)
      ensures Valid() && this.device == device
      ensures currentQuestion == 0 && score == 0 && !showResult
    {
      this.device := device;
      currentQuestion := 0;
      score := 0;
      showResult := false;
    }

    /** The result screen's verdict. */
    function ResultPassed(): (passed: bool)
      reads this
      requires Valid() && showResult
      ensures passed <==> ScorePayload(0, score, |ANSWER_KEY|).status == "passed"
    {
      score >= 2
    }

    /** `submitScore(finalScore)` */
    method SubmitScore(finalScore: int, fetchThrows: bool, id: string, timestamp: string, writeFails: bool)
      modifies device`queueSlot, device`requests
      ensures var (slot', sent) := SubmitEffects(old(device.user), old(device.online), old(device.token),
                                                 old(device.queueSlot), finalScore, fetchThrows, id, timestamp, writeFails);
              device.queueSlot == slot' && device.requests == old(device.requests) + sent
    {
      var storedUser := device.user;
      var token := device.token;
      if storedUser.None? {
        return;
      }
      var payload := ToJson(ScorePayload(storedUser.value.id, finalScore, |ANSWER_KEY|));
      if !device.online {
        OfflineSync.SaveOfflineAction(device, PROGRESS_PATH, "POST", payload, id, timestamp, writeFails);
        return;
      }
      device.requests := device.requests + [ProgressRequest(token, payload)];
      if fetchThrows {
        OfflineSync.SaveOfflineAction(device, PROGRESS_PATH, "POST", payload, id, timestamp, writeFails);
      }
    }

    /** `handleAnswer(index)`; the last three parameters only matter on the last question,
        where they decide how the submission goes. */
    method HandleAnswer(index: int, fetchThrows: bool, id: string, timestamp: string, writeFails: bool)
      requires Valid() && !showResult
      modifies this`currentQuestion, this`score, this`showResult, device`queueSlot, device`requests
      ensures Valid()
      ensures score == old(score) + (if index == ANSWER_KEY[old(currentQuestion)] then 1 else 0)
      ensures old(currentQuestion) + 1 < |ANSWER_KEY| ==>
                && currentQuestion == old(currentQuestion) + 1 && !showResult
                && device.queueSlot == old(device.queueSlot) && device.requests == old(device.requests)
      ensures old(currentQuestion) + 1 == |ANSWER_KEY| ==>
                && currentQuestion == old(currentQuestion) && showResult && score <= |ANSWER_KEY|
                && var (slot', sent) := SubmitEffects(old(device.user), old(device.online), old(device.token),
                                                      old(device.queueSlot), score, fetchThrows, id, timestamp, writeFails);
                   device.queueSlot == slot' && device.requests == old(device.requests) + sent
    {
      var correct := index == ANSWER_KEY[currentQuestion];
      var finalScore := score + (if correct then 1 else 0);
      if correct {
        score := score + 1;
      }
      var nextQuestion := currentQuestion + 1;
      if nextQuestion < |ANSWER_KEY| {
        currentQuestion := nextQuestion;
      } else {
        SubmitScore(finalScore, fetchThrows, id, timestamp, writeFails);
        showResult := true;
      }
    }
  }
}
