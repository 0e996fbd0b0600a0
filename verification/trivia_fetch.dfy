/** The fetch pipeline of `QuizViewModel`: the guards that end a fetch early,
    and the published quiz list that only a successful decode replaces.
    The network call and the JSON decoder are not modelled; what they deliver
    arrives as a `Response` and a `decode` function. */
module TriviaFetch {
  import opened QuizModel

  type Byte = bv8

  /** What the data task's completion handler receives. */
  datatype Response = Response(data: Option<seq<Byte>>, error: Option<string>)

  /** How one fetch ends. */
  datatype FetchOutcome =
    | ConfigError                     // the endpoint text is not a URL
    | TransportError                  // the data task reported an error
    | NoData                          // no error, but no body either
    | DecodeError                     // the body is not an array of quiz items
    | Success(items: seq<QuizItem>)   // the decoded array

  /** The guards of `fetchTrivia`, in the order the code tests them: the URL,
      then the error (checked before the body, so an error wins even when a
      body came with it), then the body, then the decoder. */
  function Classify(endpointValid: bool, response: Response,
                    decode: seq<Byte> -> Option<seq<QuizItem>>): (o: FetchOutcome)
    ensures o == ConfigError <==> !endpointValid
    ensures o == TransportError <==> endpointValid && response.error.Some?
    ensures o == NoData <==> endpointValid && response.error.None? && response.data.None?
    ensures o == DecodeError <==>
              endpointValid && response.error.None? && response.data.Some? &&
              decode(response.data.value).None?
    ensures o.Success? <==>
              endpointValid && response.error.None? && response.data.Some? &&
              decode(response.data.value).Some?
    ensures o.Success? ==> o.items == decode(response.data.value).value
  {
    if !endpointValid then ConfigError
    else if response.error.Some? then TransportError
    else if response.data.None? then NoData
    else match decode(response.data.value)
      case None => DecodeError
      case Some(items) => Success(items)
  }

  /** The published list after one outcome is applied to `list`. */
  function Next(list: seq<QuizItem>, o: FetchOutcome): seq<QuizItem>
  {
    if o.Success? then o.items else list
  }

  /** The published list after the outcomes of a run of fetches complete, in
      the order they complete, starting from `list`. Only a success reaches the
      main queue and assigns the list; a failure returns inside the completion
      handler and folds in as a no-op. */
  function Replay(list: seq<QuizItem>, outcomes: seq<FetchOutcome>): seq<QuizItem>
    decreases |outcomes|
  {
    if outcomes == [] then list else Replay(Next(list, outcomes[0]), outcomes[1..])
  }

  /** Reference definition read from the other end: the items of the last
      successful outcome, if any. */
  function LastSuccess(outcomes: seq<FetchOutcome>): Option<seq<QuizItem>>
    decreases |outcomes|
  {
    if outcomes == [] then None
    else if outcomes[|outcomes| - 1].Success? then Some(outcomes[|outcomes| - 1].items)
    else LastSuccess(outcomes[..|outcomes| - 1])
  }

  /** Applying one more outcome after a run is applying it to the run's result. */
  lemma {:induction false} ReplaySnoc(list: seq<QuizItem>, outcomes: seq<FetchOutcome>, o: FetchOutcome)
    ensures Replay(list, outcomes + [o]) == Next(Replay(list, outcomes), o)
    decreases |outcomes|
  {
    if outcomes != [] {
      assert (outcomes + [o])[1..] == outcomes[1..] + [o];
      ReplaySnoc(Next(list, outcomes[0]), outcomes[1..], o);
    }
  }

  /** Overlapping fetches: whatever the order of delivery, the published list
      is the one decoded last, and it is the starting list when no fetch in
      the run succeeded. */
  lemma {:induction false} LastDecodeWins(list: seq<QuizItem>, outcomes: seq<FetchOutcome>)
    ensures Replay(list, outcomes) == match LastSuccess(outcomes)
                                      case Some(items) => items
                                      case None => list
    decreases |outcomes|
  {
    if outcomes != [] {
      var n := |outcomes| - 1;
      assert outcomes == outcomes[..n] + [outcomes[n]];
      ReplaySnoc(list, outcomes[..n], outcomes[n]);
      LastDecodeWins(list, outcomes[..n]);
    }
  }

  /** Failures only: the list is exactly what it was before the run. */
  lemma {:induction false} FailuresLeaveListUnchanged(list: seq<QuizItem>, outcomes: seq<FetchOutcome>)
    requires forall k :: 0 <= k < |outcomes| ==> !outcomes[k].Success?
    ensures Replay(list, outcomes) == list
  {
    LastDecodeWins(list, outcomes);
    NoSuccessHasNoLast(outcomes);
  }

  lemma {:induction false} NoSuccessHasNoLast(outcomes: seq<FetchOutcome>)
    requires forall k :: 0 <= k < |outcomes| ==> !outcomes[k].Success?
    ensures LastSuccess(outcomes) == None
    decreases |outcomes|
  {
    if outcomes != [] {
      NoSuccessHasNoLast(outcomes[..|outcomes| - 1]);
    }
  }

  /** `QuizViewModel`: owns the published quiz list. */
  class QuizViewModel {
    var quizList: seq<QuizItem>

    constructor ()
      ensures quizList == []
    {
      quizList := [];
    }

    /** The completion of one fetch: every failure returns before touching the
        list; a successful decode replaces it wholesale. */
    method ApplyFetchOutcome(o: FetchOutcome)
      modifies this
      ensures o.Success? ==> quizList == o.items
      ensures !o.Success? ==> quizList == old(quizList)
    {
      match o
      case Success(items) =>
        quizList := items;
      case _ =>
        return;
    }

    /** `fetchTrivia`, with the network and the decoder as inputs. */
    method FetchTrivia(endpointValid: bool, response: Response,
                       decode: seq<Byte> -> Option<seq<QuizItem>>)
      returns (o: FetchOutcome)
      modifies this
      ensures o == Classify(endpointValid, response, decode)
      ensures quizList == Next(old(quizList), o)
    {
      o := Classify(endpointValid, response, decode);
      ApplyFetchOutcome(o);
    }
  }
}
