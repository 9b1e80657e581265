/**
 Errors of a LaunchInstance call and the three decisions taken on them: whether the SDK sends the
 request again under the same token, whether the instance may exist although the call failed, and
 whether the task retries or stops.
 */
module LaunchErrors {
  import opened Prelude

  /** Service: OCI answered. Transport(recognised): any other error, recognised when it is a
      known network failure. */
  datatype CallError =
    | Service(status: int, code: string, message: string)
    | Canceled
    | DeadlineExceeded
    | Transport(recognised: bool)

  datatype Category = CapacityFull | RateLimited | Transient | FatalError | Cancelled

  predicate IsCapacityMessage(message: string) {
    var lower := Lower(message);
    Contains(lower, "out of host capacity") || Contains(lower, "out of capacity")
  }

  predicate IsCapacityAnswer(e: CallError) {
    e.Service? && e.status == 500 && IsCapacityMessage(e.message)
  }

  /** Does the error leave open that the instance was created? No error means the call returned
      without an OCID. */
  predicate OutcomeUnknown(err: Option<CallError>) {
    match err
    case None => true
    case Some(Service(status, _, message)) =>
      if status == 500 && IsCapacityMessage(message) then false else status >= 500 && status != 501
    case Some(_) => true
  }

  predicate Definite(e: CallError) {
    !OutcomeUnknown(Some(e))
  }

  /** The retry policy of one LaunchInstance call. */
  predicate ShouldResend(e: CallError) {
    match e
    case Canceled => false
    case DeadlineExceeded => false
    case Transport(_) => true
    case Service(status, code, message) =>
      if status == 429 || status == 501 then false
      else if status == 500 && IsCapacityMessage(message) then false
      else if status >= 500 then true
      else status == 409 && code == "IncorrectState"
  }

  function ClassifyError(err: Option<CallError>): Category {
    match err
    case None => CapacityFull
    case Some(Canceled) => Cancelled
    case Some(Service(status, _, message)) =>
      if status == 429 then RateLimited
      else if status == 500 && IsCapacityMessage(Lower(message)) then CapacityFull
      else if status in {500, 502, 503, 504, 409} then Transient
      else FatalError
    case Some(DeadlineExceeded) => Transient
    case Some(Transport(recognised)) => if recognised then Transient else FatalError
  }

  /** The phrase occurs in the message in some mixture of upper and lower case. */
  ghost predicate Mentions(message: string, phrase: string) {
    exists before, said, after :: message == before + said + after && Lower(said) == phrase
  }

  /** A message speaks of capacity exactly when it has one of two phrases, however it is capitalised. */
  lemma CapacityMessageExactly(message: string)
    ensures IsCapacityMessage(message) <==>
              Mentions(message, "out of host capacity") || Mentions(message, "out of capacity")
  {
    MentionsExactly(message, "out of host capacity");
    MentionsExactly(message, "out of capacity");
  }

  lemma MentionsExactly(message: string, phrase: string)
    ensures Contains(Lower(message), phrase) <==> Mentions(message, phrase)
  {
    if Contains(Lower(message), phrase) {
      var i :| 0 <= i <= |message| && OccursAt(Lower(message), phrase, i);
      var before, said, after := message[..i], message[i..i + |phrase|], message[i + |phrase|..];
      assert message == before + said + after;
      LowerOfParts(before, said, after);
    }
    if Mentions(message, phrase) {
      var before, said, after :| message == before + said + after && Lower(said) == phrase;
      LowerOfParts(before, said, after);
      assert OccursAt(Lower(message), phrase, |before|);
    }
  }

  lemma LowerOfParts(before: string, said: string, after: string)
    ensures Lower(before + said + after)[|before|..|before| + |said|] == Lower(said)
  {
    LowerOfConcat(before + said, after);
    LowerOfConcat(before, said);
    hide Lower;
  }

  /** What an error means for the task, status by status. */
  predicate IsThrottle(e: CallError) {
    e.Service? && e.status == 429
  }

  predicate IsPassing(e: CallError) {
    match e
    case Service(status, _, _) => !IsCapacityAnswer(e) && (status == 409 || status == 500 || 502 <= status <= 504)
    case Canceled => false
    case DeadlineExceeded => true
    case Transport(recognised) => recognised
  }

  /** No retry can help: the service refused with any other status, or the failure is of no known kind. */
  predicate EndsTask(e: CallError) {
    match e
    case Service(status, _, _) => status !in {409, 429, 500, 502, 503, 504}
    case Transport(recognised) => !recognised
    case _ => false
  }

  /** The five categories, each exactly. */
  lemma CategoriesExactly(e: CallError)
    ensures ClassifyError(Some(e)).RateLimited? <==> IsThrottle(e)
    ensures ClassifyError(Some(e)).CapacityFull? <==> IsCapacityAnswer(e)
    ensures ClassifyError(Some(e)).Transient? <==> IsPassing(e)
    ensures ClassifyError(Some(e)).FatalError? <==> EndsTask(e)
    ensures ClassifyError(Some(e)).Cancelled? <==> e.Canceled?
  {
    if e.Service? {
      LowerIdempotent(e.message);
    }
  }

  /** And the other two decisions: the outcome is open after every failure but a service answer below 500,
      501 or lack of capacity; and the call is repeated after those of them that have a reason to pass. */
  lemma OpenOutcomeExactly(e: CallError)
    ensures OutcomeUnknown(Some(e)) <==> !(e.Service? && (e.status < 500 || e.status == 501 || IsCapacityAnswer(e)))
    ensures ShouldResend(e) <==>
              || e.Transport?
              || (e.Service? && e.status >= 500 && e.status != 501 && !IsCapacityAnswer(e))
              || (e.Service? && e.status == 409 && e.code == "IncorrectState")
  {
  }

  /** The three decisions agree on every error: what looks like lack of capacity or throttling is
      never an instance in disguise, the two capacity tests (one on the raw text, one on the
      lower-cased text) name the same answers, and a resend happens only when the outcome is open
      or the service said 409 IncorrectState. */
  lemma DecisionsAgree(e: CallError)
    ensures ClassifyError(Some(e)).CapacityFull? <==> IsCapacityAnswer(e)
    ensures ClassifyError(Some(e)).CapacityFull? || ClassifyError(Some(e)).RateLimited? ==>
              Definite(e) && !ShouldResend(e)
    ensures ShouldResend(e) <==>
            (OutcomeUnknown(Some(e)) && !e.Canceled? && !e.DeadlineExceeded?)
            || (e.Service? && e.status == 409 && e.code == "IncorrectState")
    ensures Definite(e) && ClassifyError(Some(e)).Transient? ==> e.Service? && e.status == 409
  {
    if e.Service? {
      LowerIdempotent(e.message);
    }
  }
}
