/** The prompt-comparison service: authenticated requests run one user
    message against two system prompts, store the comparison in an
    in-memory table keyed by id, let the owner rate it, and list the
    requester's comparisons, most recent first.

    The table is a JavaScript `Map`, which iterates in insertion order; the
    model keeps that order next to the entries. */
module EvalRoutes {
  import opened Base

  datatype Rating = A | B

  datatype EvalResult = EvalResult(
    id: string,
    promptA: string,
    promptB: string,
    userMessage: string,
    responseA: string,
    responseB: string,
    latencyA: nat,
    latencyB: nat,
    tokensA: nat,
    tokensB: nat,
    rating: Option<Rating>,
    timestamp: nat,
    userId: string)

  /** An error response (`res.status(status).json({error})`) or a result. */
  datatype Reply<+T> = Failure(status: nat, error: string) | Success(value: T)

  // ---------------------------------------------------------------------
  // requireAuth

  const BearerPrefix: string := "Bearer "

  /** `authHeader.split(' ')[1]` for a header that starts with `Bearer `. */
  function BearerToken(header: string): string
    requires BearerPrefix <= header
  {
    assert header[6] == ' ';
    SplitTwoPieces(header, ' ');
    Split(header, ' ')[1]
  }

  lemma BearerTokenOf(token: string)
    requires ' ' !in token
    ensures BearerToken(BearerPrefix + token) == token
  {
    assert BearerPrefix + token == "Bearer" + [' '] + token;
    SplitAtFirst("Bearer", ' ', token);
    SplitNoSep(token, ' ');
  }

  const NoTokenError: string := "No token provided"
  const InvalidTokenError: string := "Invalid token"

  /** `requireAuth`: 401 without a `Bearer ` header, 401 when the verifier
      rejects the token, and otherwise the token's claims. */
  function RequireAuth(header: Option<string>, verify: string -> Option<Identity>): (r: Reply<Identity>)
    ensures r == Failure(401, NoTokenError) <==> !Truthy(header) || !(BearerPrefix <= header.value)
    ensures r == Failure(401, InvalidTokenError) <==>
      Truthy(header) && BearerPrefix <= header.value && verify(BearerToken(header.value)).None?
    ensures r.Success? <==>
      Truthy(header) && BearerPrefix <= header.value && verify(BearerToken(header.value)).Some?
    ensures r.Success? ==> verify(BearerToken(header.value)) == Some(r.value)
  {
    if !Truthy(header) || !(BearerPrefix <= header.value) then Failure(401, NoTokenError)
    else
      match verify(BearerToken(header.value))
      case None => Failure(401, InvalidTokenError)
      case Some(user) => Success(user)
  }

  // ---------------------------------------------------------------------
  // makeOpenAIRequest

  /** What the provider did: answered (the first choice's content and the
      usage total, each possibly missing), or threw. */
  datatype ProviderOutcome = Answered(content: Option<string>, totalTokens: Option<nat>) | Threw

  /** One provider call: its outcome, the milliseconds it took, and the
      random draw `Math.floor(Math.random() * 100)` used when it throws. */
  datatype ProviderCall = ProviderCall(outcome: ProviderOutcome, latency: nat, draw: nat)

  datatype Completion = Completion(response: string, latency: nat, tokens: nat)

  const NoResponse: string := "No response"
  const FallbackHead: string := "Mock response for: \""
  const FallbackMiddle: string := "\" with prompt: \""
  const FallbackTail: string := "...\""

  /** `prompt.substring(0, 50)`. */
  function First50(prompt: string): (p: string)
    ensures |p| <= 50 && p <= prompt
    ensures |prompt| <= 50 ==> p == prompt
  {
    if |prompt| <= 50 then prompt else prompt[..50]
  }

  function FallbackResponse(prompt: string, userMessage: string): string {
    FallbackHead + userMessage + FallbackMiddle + First50(prompt) + FallbackTail
  }

  /** The fallback text gives back the user's message and the start of the
      prompt at fixed places. */
  lemma FallbackEmbeds(prompt: string, userMessage: string)
    ensures var r, h, m := FallbackResponse(prompt, userMessage), |FallbackHead|, |userMessage|;
      && |r| == h + m + |FallbackMiddle| + |First50(prompt)| + |FallbackTail|
      && r[..h] == FallbackHead
      && r[h..h + m] == userMessage
      && r[h + m + |FallbackMiddle|..|r| - |FallbackTail|] == First50(prompt)
  {
  }

  /** `makeOpenAIRequest`: the answer (or `No response`) with its token count
      (or 0); when the provider throws, the fallback text and a random count
      between 20 and 119. The latency is measured either way. */
  function Complete(prompt: string, userMessage: string, call: ProviderCall): (c: Completion)
    requires call.draw < 100
    ensures c.latency == call.latency
    ensures call.outcome.Threw? ==>
      c.response == FallbackResponse(prompt, userMessage) && 20 <= c.tokens < 120
    ensures call.outcome.Answered? && Truthy(call.outcome.content) ==> c.response == call.outcome.content.value
    ensures call.outcome.Answered? && !Truthy(call.outcome.content) ==> c.response == NoResponse
    ensures call.outcome.Answered? && call.outcome.totalTokens.None? ==> c.tokens == 0
    ensures call.outcome.Answered? && call.outcome.totalTokens.Some? ==> c.tokens == call.outcome.totalTokens.value
  {
    match call.outcome
    case Answered(content, totalTokens) =>
      Completion(OrElse(content, NoResponse), call.latency, if totalTokens.Some? then totalTokens.value else 0)
    case Threw =>
      Completion(FallbackResponse(prompt, userMessage), call.latency, call.draw + 20)
  }

  // ---------------------------------------------------------------------
  // The table and its listing

  /** The entries in the table's iteration order. */
  function ValuesOf(results: map<string, EvalResult>, order: seq<string>): (vs: seq<EvalResult>)
    requires forall i :: 0 <= i < |order| ==> order[i] in results
    ensures |vs| == |order|
    ensures forall i :: 0 <= i < |order| ==> vs[i] == results[order[i]]
  {
    seq(|order|, i requires 0 <= i < |order| => results[order[i]])
  }

  function Timestamp(r: EvalResult): int {
    r.timestamp
  }

  function OwnedBy(userId: string): EvalResult -> bool {
    (r: EvalResult) => r.userId == userId
  }

  /** The `/results` listing: the requester's entries, most recent first. */
  function ResultsOf(results: map<string, EvalResult>, order: seq<string>, userId: string): seq<EvalResult>
    requires forall i :: 0 <= i < |order| ==> order[i] in results
  {
    SortDesc(Filter(ValuesOf(results, order), OwnedBy(userId)), Timestamp)
  }

  /** Every listed entry is one of the requester's stored entries. */
  lemma ResultsOfOwned(results: map<string, EvalResult>, order: seq<string>, userId: string)
    requires forall k :: k in results <==> k in order
    ensures var listed := ResultsOf(results, order, userId);
      forall i :: 0 <= i < |listed| ==> listed[i].userId == userId && listed[i] in results.Values
  {
    var vs := ValuesOf(results, order);
    var owned := Filter(vs, OwnedBy(userId));
    var listed := ResultsOf(results, order, userId);
    FilterKeeps(vs, OwnedBy(userId));
    SortDescProps(owned, Timestamp);
    forall i | 0 <= i < |listed| ensures listed[i].userId == userId && listed[i] in results.Values {
      assert listed[i] in multiset(owned);
      var j :| 0 <= j < |owned| && owned[j] == listed[i];
      assert OwnedBy(userId)(owned[j]);
      var n :| 0 <= n < |vs| && vs[n] == owned[j];
      assert order[n] in results;
    }
  }

  /** Every stored entry of the requester is listed. */
  lemma ResultsOfComplete(results: map<string, EvalResult>, order: seq<string>, userId: string)
    requires forall k :: k in results <==> k in order
    ensures forall k :: k in results && results[k].userId == userId ==> results[k] in ResultsOf(results, order, userId)
  {
    var vs := ValuesOf(results, order);
    var owned := Filter(vs, OwnedBy(userId));
    FilterKeeps(vs, OwnedBy(userId));
    SortDescProps(owned, Timestamp);
    forall k | k in results && results[k].userId == userId ensures results[k] in ResultsOf(results, order, userId) {
      var n :| 0 <= n < |order| && order[n] == k;
      assert vs[n] == results[k];
      assert OwnedBy(userId)(vs[n]);
      assert results[k] in multiset(owned);
    }
  }

  /** The listing is a permutation of the requester's entries in iteration
      order, most recent first. */
  lemma ResultsOfSorted(results: map<string, EvalResult>, order: seq<string>, userId: string)
    requires forall k :: k in results <==> k in order
    ensures var listed := ResultsOf(results, order, userId);
      && multiset(listed) == multiset(Filter(ValuesOf(results, order), OwnedBy(userId)))
      && forall i, j :: 0 <= i < j < |listed| ==> listed[i].timestamp >= listed[j].timestamp
  {
    var listed := ResultsOf(results, order, userId);
    SortDescProps(Filter(ValuesOf(results, order), OwnedBy(userId)), Timestamp);
    forall i, j | 0 <= i < j < |listed| ensures listed[i].timestamp >= listed[j].timestamp {
      assert Timestamp(listed[i]) >= Timestamp(listed[j]);
    }
  }

  /** In a store whose ids are distinct and whose entries sit under their own
      ids, each of the requester's entries is listed exactly once. */
  lemma ResultsOfOnce(results: map<string, EvalResult>, order: seq<string>, userId: string)
    requires forall k :: k in results <==> k in order
    requires forall i, j :: 0 <= i < j < |order| ==> order[i] != order[j]
    requires forall k :: k in results ==> results[k].id == k
    ensures forall k :: k in results && results[k].userId == userId ==>
      multiset(ResultsOf(results, order, userId))[results[k]] == 1
  {
    var vs := ValuesOf(results, order);
    SortDescProps(Filter(vs, OwnedBy(userId)), Timestamp);
    forall i, j | 0 <= i < j < |vs| ensures vs[i] != vs[j] {
      assert vs[i].id == order[i] && vs[j].id == order[j];
    }
    forall k | k in results && results[k].userId == userId
      ensures multiset(ResultsOf(results, order, userId))[results[k]] == 1
    {
      var n :| 0 <= n < |order| && order[n] == k;
      assert vs[n] == results[k];
      DistinctCount(vs, results[k]);
      FilterCount(vs, OwnedBy(userId), results[k]);
    }
  }

  /** The body of a `/compare` request. */
  datatype CompareRequest = CompareRequest(userMessage: Option<string>, promptA: Option<string>, promptB: Option<string>)

  predicate CompleteRequest(req: CompareRequest) {
    Truthy(req.userMessage) && Truthy(req.promptA) && Truthy(req.promptB)
  }

  /** The comparison `/compare` stores at time `now`. */
  function NewResult(userId: string, req: CompareRequest, a: Completion, b: Completion, now: nat): (r: EvalResult)
    requires CompleteRequest(req)
    ensures r.userId == userId && r.rating.None? && r.id == NatToString(now)
  {
    EvalResult(NatToString(now), req.promptA.value, req.promptB.value, req.userMessage.value,
               a.response, b.response, a.latency, b.latency, a.tokens, b.tokens, None, now, userId)
  }

  const MissingFieldsError: string := "Missing required fields"
  const InvalidRatingError: string := "Invalid rating data"
  const NotFoundError: string := "Result not found"
  const ForbiddenError: string := "Not authorized to rate this result"

  /** `!rating || !['A', 'B'].includes(rating)`, read the other way round. */
  function ParseRating(rating: Option<string>): (r: Option<Rating>)
    ensures r == Some(A) <==> rating == Some("A")
    ensures r == Some(B) <==> rating == Some("B")
  {
    if rating == Some("A") then Some(A) else if rating == Some("B") then Some(B) else None
  }

  /** The comparison results, held in memory by the server. */
  class EvalStore {
    var results: map<string, EvalResult>
    var order: seq<string>

    /** Every stored id appears once in the iteration order, and every entry
        is stored under its own id. */
    ghost predicate Valid()
      reads this
    {
      && (forall k :: k in results <==> k in order)
      && (forall i, j :: 0 <= i < j < |order| ==> order[i] != order[j])
      && (forall k :: k in results ==> results[k].id == k)
    }

    constructor ()
      ensures Valid() && results == map[] && order == []
    {
      results := map[];
      order := [];
    }

    /** `GET /results`. */
    function Results(userId: string): seq<EvalResult>
      reads this
      requires Valid()
    {
      ResultsOf(results, order, userId)
    }

    /** `Map.prototype.set`: a new key goes to the end of the iteration order,
        an existing key keeps its place and gets the new value. */
    method Put(r: EvalResult)
      requires Valid()
      modifies this
      ensures Valid()
      ensures results == old(results)[r.id := r]
      ensures order == if r.id in old(results) then old(order) else old(order) + [r.id]
    {
      if r.id !in results {
        order := order + [r.id];
      }
      results := results[r.id := r];
    }

    /** `POST /compare`: 400 and no change when a field is missing or empty;
        otherwise both prompts are run and the comparison is stored under
        its id for the requester, unrated. */
    method Compare(userId: string, req: CompareRequest, callA: ProviderCall, callB: ProviderCall, now: nat)
      returns (reply: Reply<EvalResult>)
      requires Valid()
      requires callA.draw < 100 && callB.draw < 100
      modifies this
      ensures Valid()
      ensures !CompleteRequest(req) ==>
        reply == Failure(400, MissingFieldsError) && results == old(results) && order == old(order)
      ensures CompleteRequest(req) ==>
        var a := Complete(req.promptA.value, req.userMessage.value, callA);
        var b := Complete(req.promptB.value, req.userMessage.value, callB);
        && reply == Success(NewResult(userId, req, a, b, now))
        && results == old(results)[reply.value.id := reply.value]
        && order == (if reply.value.id in old(results) then old(order) else old(order) + [reply.value.id])
    {
      if !CompleteRequest(req) {
        return Failure(400, MissingFieldsError);
      }
      var a := Complete(req.promptA.value, req.userMessage.value, callA);
      var b := Complete(req.promptB.value, req.userMessage.value, callB);
      var result := NewResult(userId, req, a, b, now);
      Put(result);
      reply := Success(result);
    }

    /** `POST /rate`: 400 for a missing id or a rating other than A or B,
        then 404 for an unknown id, then 403 for another user's comparison;
        otherwise only that entry's rating changes. */
    method Rate(userId: string, resultId: Option<string>, rating: Option<string>) returns (reply: Reply<Rating>)
      requires Valid()
      modifies this
      ensures Valid()
      ensures reply.Failure? ==> results == old(results) && order == old(order)
      ensures reply == Failure(400, InvalidRatingError) <==> !Truthy(resultId) || ParseRating(rating).None?
      ensures reply == Failure(404, NotFoundError) <==>
        Truthy(resultId) && ParseRating(rating).Some? && resultId.value !in old(results)
      ensures reply == Failure(403, ForbiddenError) <==>
        Truthy(resultId) && ParseRating(rating).Some? && resultId.value in old(results)
        && old(results)[resultId.value].userId != userId
      ensures reply.Success? ==>
        && reply.value == ParseRating(rating).value
        && resultId.value in old(results)
        && results == old(results)[resultId.value := old(results)[resultId.value].(rating := Some(reply.value))]
        && results.Keys == old(results).Keys
        && order == old(order)
    {
      var parsed := ParseRating(rating);
      if !Truthy(resultId) || parsed.None? {
        return Failure(400, InvalidRatingError);
      }
      var id := resultId.value;
      if id !in results {
        return Failure(404, NotFoundError);
      }
      var result := results[id];
      if result.userId != userId {
        return Failure(403, ForbiddenError);
      }
      result := result.(rating := parsed);
      Put(result);
      reply := Success(parsed.value);
    }
  }
}
