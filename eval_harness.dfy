/** The comparison page's client state (`EvalHarness`): run a comparison of
    the current message against the two prompts, fall back to a locally made
    mock when the service does not answer, and rate results by id.

    The network, the clock and `Math.random` are parameters: the service's
    answer, the time in milliseconds, and the whole-number parts the mock
    draws for its latencies and token counts. */
module EvalHarness {
  import opened Base
  import EvalRoutes

  /** A comparison as the page holds it. */
  datatype Comparison = Comparison(
    id: string,
    promptA: string,
    promptB: string,
    userMessage: string,
    responseA: string,
    responseB: string,
    latencyA: nat,
    latencyB: nat,
    tokensA: nat,
    tokensB: nat,
    rating: Option<EvalRoutes.Rating>,
    timestamp: nat)

  /** What `fetch('/api/eval/compare')` comes to: a result, a non-OK status,
      or an exception. */
  datatype CompareAnswer = Compared(result: Comparison) | NotOk | NetworkError

  /** `Math.floor(Math.random() * n)` for the four draws of a mock. */
  datatype Draws = Draws(latencyA: nat, latencyB: nat, tokensA: nat, tokensB: nat)

  predicate InRange(d: Draws) {
    d.latencyA < 2000 && d.latencyB < 2000 && d.tokensA < 100 && d.tokensB < 120
  }

  const ResponseAHead: string := "Response A: "
  const ResponseATail: string := " - This is a mock response from prompt A."
  const ResponseBHead: string := "Response B: "
  const ResponseBTail: string := " - This is a mock response from prompt B with more detail."

  /** The result made locally when the service does not answer: the message
      embedded in both fixed response formats, no rating, and latencies and
      token counts in the mock's ranges. */
  function MockComparison(userMessage: string, promptA: string, promptB: string, now: nat, d: Draws): (r: Comparison)
    requires InRange(d)
    ensures r.id == NatToString(now) && r.timestamp == now && r.rating == None
    ensures r.userMessage == userMessage && r.promptA == promptA && r.promptB == promptB
    ensures r.responseA == ResponseAHead + userMessage + ResponseATail
    ensures r.responseB == ResponseBHead + userMessage + ResponseBTail
    ensures 500 <= r.latencyA < 2500 && 500 <= r.latencyB < 2500
    ensures 20 <= r.tokensA < 120 && 25 <= r.tokensB < 145
  {
    Comparison(NatToString(now), promptA, promptB, userMessage,
               ResponseAHead + userMessage + ResponseATail,
               ResponseBHead + userMessage + ResponseBTail,
               d.latencyA + 500, d.latencyB + 500, d.tokensA + 20, d.tokensB + 25,
               None, now)
  }

  /** `prev.map(result => result.id === resultId ? {...result, rating} : result)`. */
  function RateAll(results: seq<Comparison>, resultId: string, rating: EvalRoutes.Rating): (r: seq<Comparison>)
    ensures |r| == |results|
  {
    seq(|results|, i requires 0 <= i < |results| =>
      if results[i].id == resultId then results[i].(rating := Some(rating)) else results[i])
  }

  /** Rating touches exactly the entries with that id: they get the rating
      and keep everything else; all other entries are unchanged. */
  lemma RateAllEffect(results: seq<Comparison>, resultId: string, rating: EvalRoutes.Rating)
    ensures var r := RateAll(results, resultId, rating);
      forall i :: 0 <= i < |r| ==>
        && r[i].id == results[i].id
        && (results[i].id == resultId ==> r[i].rating == Some(rating) && r[i] == results[i].(rating := r[i].rating))
        && (results[i].id != resultId ==> r[i] == results[i])
  {
  }

  /** Rating the same id again replaces the earlier rating. */
  lemma LastRatingWins(results: seq<Comparison>, resultId: string, first: EvalRoutes.Rating, second: EvalRoutes.Rating)
    ensures RateAll(RateAll(results, resultId, first), resultId, second) == RateAll(results, resultId, second)
  {
    var once := RateAll(results, resultId, first);
    assert forall i :: 0 <= i < |results| ==>
      RateAll(once, resultId, second)[i] == RateAll(results, resultId, second)[i];
  }

  /** Ratings of different ids do not interfere: their order does not matter. */
  lemma RatingsCommute(results: seq<Comparison>, id1: string, r1: EvalRoutes.Rating, id2: string, r2: EvalRoutes.Rating)
    requires id1 != id2
    ensures RateAll(RateAll(results, id1, r1), id2, r2) == RateAll(RateAll(results, id2, r2), id1, r1)
  {
    var x, y := RateAll(RateAll(results, id1, r1), id2, r2), RateAll(RateAll(results, id2, r2), id1, r1);
    assert forall i :: 0 <= i < |results| ==> x[i] == y[i];
  }

  /** `currentResult`'s update in `rateResponse`: only a current result with
      that id is rated. */
  function RateCurrent(current: Option<Comparison>, resultId: string, rating: EvalRoutes.Rating): (r: Option<Comparison>)
    ensures r.Some? <==> current.Some?
    ensures current.Some? && current.value.id == resultId ==> r == Some(current.value.(rating := Some(rating)))
    ensures current.Some? && current.value.id != resultId ==> r == current
  {
    if current.Some? && current.value.id == resultId then Some(current.value.(rating := Some(rating))) else current
  }

  class Harness {
    var userMessage: string
    var promptA: string
    var promptB: string
    var isRunning: bool
    var currentResult: Option<Comparison>
    var results: seq<Comparison>

    constructor()
      ensures userMessage == "" && promptA == "You are a helpful assistant."
      ensures promptB == "You are a creative and detailed assistant."
      ensures !isRunning && currentResult == None && results == []
    {
      userMessage := "";
      promptA := "You are a helpful assistant.";
      promptB := "You are a creative and detailed assistant.";
      isRunning := false;
      currentResult := None;
      results := [];
    }

    /** `runComparison`. Nothing happens for a blank message. Otherwise the
        service's result becomes current; when the service does not answer,
        a mock becomes current and is put first in the history. Either way
        the page stops running. */
    method RunComparison(answer: CompareAnswer, now: nat, d: Draws)
      requires InRange(d)
      modifies this
      ensures userMessage == old(userMessage) && promptA == old(promptA) && promptB == old(promptB)
      ensures Blank(userMessage) ==>
        isRunning == old(isRunning) && currentResult == old(currentResult) && results == old(results)
      ensures !Blank(userMessage) ==> !isRunning
      ensures !Blank(userMessage) && answer.Compared? ==>
        currentResult == Some(answer.result) && results == old(results)
      ensures !Blank(userMessage) && !answer.Compared? ==>
        var mock := MockComparison(userMessage, promptA, promptB, now, d);
        currentResult == Some(mock) && results == [mock] + old(results)
    {
      TrimEmptyIffBlank(userMessage);
      if Trim(userMessage) == "" {
        return;
      }
      isRunning := true;
      currentResult := None;
      match answer {
        case Compared(result) =>
          currentResult := Some(result);
        case _ =>
          var mock := MockComparison(userMessage, promptA, promptB, now, d);
          currentResult := Some(mock);
          results := [mock] + results;
      }
      isRunning := false;
    }

    /** `rateResponse`: the local state is rated whether or not the request
        to the service went through. */
    method RateResponse(resultId: string, rating: EvalRoutes.Rating)
      modifies this
      ensures results == RateAll(old(results), resultId, rating)
      ensures currentResult == RateCurrent(old(currentResult), resultId, rating)
      ensures userMessage == old(userMessage) && promptA == old(promptA) && promptB == old(promptB)
      ensures isRunning == old(isRunning)
    {
      results := RateAll(results, resultId, rating);
      if currentResult.Some? && currentResult.value.id == resultId {
        currentResult := Some(currentResult.value.(rating := Some(rating)));
      }
    }
  }
}
