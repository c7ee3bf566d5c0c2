/** The page fetch with its bounded retry. The HTTP request is replaced by an
    oracle: `responses[k]` is what the k-th attempt (counting from 0) returns
    or throws. */
module Retry {
  import opened Outcomes

  /** The number of retries a page fetch is called with when none is given. */
  const DefaultRetries := 1

  /** How many attempts a call with `retries` left may make at most: one, plus
      one more for each retry while the counter is still positive. */
  function Budget(retries: int): (n: nat)
    ensures n >= 1
  {
    if retries > 0 then retries + 1 else 1
  }

  /** What a call returns or throws, and how many requests it made. */
  datatype Fetch<T> = Fetch(result: Outcome<T>, attempts: nat)

  /** A request; on a throw, the same call again with one retry fewer while some are
      left, otherwise the error is thrown on. The oracle must answer every attempt
      the call could make. */
  function GetCheqData<T>(responses: seq<Outcome<T>>, retries: int): (f: Fetch<T>)
    requires |responses| >= Budget(retries)
    ensures 1 <= f.attempts <= Budget(retries)
    ensures f.result == responses[f.attempts - 1]
    ensures forall k :: 0 <= k < f.attempts - 1 ==> responses[k].Err?
    ensures f.result.Err? ==> f.attempts == Budget(retries)
    decreases Budget(retries)
  {
    if responses[0].Ok? then Fetch(responses[0], 1)
    else if retries > 0 then
      var again := GetCheqData(responses[1..], retries - 1);
      Fetch(again.result, again.attempts + 1)
    else Fetch(responses[0], 1)
  }

  /** The call returns the data of the first attempt that succeeds within the
      budget, and stops there. */
  lemma FirstSuccessIsReturned<T>(responses: seq<Outcome<T>>, retries: int, k: nat)
    requires |responses| >= Budget(retries)
    requires k < Budget(retries) && responses[k].Ok?
    requires forall j :: 0 <= j < k ==> responses[j].Err?
    ensures GetCheqData(responses, retries) == Fetch(responses[k], k + 1)
  {
  }

  /** When every attempt in the budget throws, the call makes all of them and throws
      the error of the last one, the attempt made with no retry left. */
  lemma AllFailuresRethrowLast<T>(responses: seq<Outcome<T>>, retries: int)
    requires |responses| >= Budget(retries)
    requires forall j :: 0 <= j < Budget(retries) ==> responses[j].Err?
    ensures GetCheqData(responses, retries) == Fetch(responses[Budget(retries) - 1], Budget(retries))
  {
  }

  /** The call succeeds exactly when some attempt within the budget would succeed. */
  lemma SucceedsIffSomeAttemptSucceeds<T>(responses: seq<Outcome<T>>, retries: int)
    requires |responses| >= Budget(retries)
    ensures GetCheqData(responses, retries).result.Ok?
        <==> exists k :: 0 <= k < Budget(retries) && responses[k].Ok?
  {
  }

  /** Only the attempts actually made matter: an oracle that agrees on them gives
      the same result, so no request is made after a success. */
  lemma {:induction false} OnlyMadeAttemptsMatter<T>(responses: seq<Outcome<T>>, other: seq<Outcome<T>>, retries: int)
    requires |responses| >= Budget(retries) && |other| >= Budget(retries)
    requires other[..GetCheqData(responses, retries).attempts] == responses[..GetCheqData(responses, retries).attempts]
    ensures GetCheqData(other, retries) == GetCheqData(responses, retries)
    decreases Budget(retries)
  {
    var f := GetCheqData(responses, retries);
    assert other[0] == other[..f.attempts][0] == responses[..f.attempts][0] == responses[0];
    if responses[0].Err? && retries > 0 {
      var g := GetCheqData(responses[1..], retries - 1);
      assert f.attempts == g.attempts + 1;
      assert other[1..][..g.attempts] == other[..f.attempts][1..];
      assert responses[1..][..g.attempts] == responses[..f.attempts][1..];
      OnlyMadeAttemptsMatter(responses[1..], other[1..], retries - 1);
    }
  }

  /** With the default counter a page is requested at most twice. */
  lemma DefaultAtMostTwoAttempts<T>(responses: seq<Outcome<T>>)
    requires |responses| >= 2
    ensures GetCheqData(responses, DefaultRetries).attempts <= 2
  {
  }

  /** With the default counter one failure is absorbed by the retry ... */
  lemma DefaultRetryMasksOneFailure<T>(e: Error, d: T, rest: seq<Outcome<T>>)
    ensures GetCheqData([Err(e), Ok(d)] + rest, DefaultRetries) == Fetch(Ok(d), 2)
  {
  }

  /** ... and a second failure is thrown, with no third request. */
  lemma DefaultSecondFailureIsThrown<T>(e1: Error, e2: Error, rest: seq<Outcome<T>>)
    ensures GetCheqData([Err(e1), Err(e2)] + rest, DefaultRetries) == Fetch(Err(e2), 2)
  {
  }
}
