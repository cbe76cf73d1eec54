/**
 * The rate-limit retry of `executeRequest`. The transport is abstracted as a
 * total function: `t(n)` is what the n-th call to `client.execute` yields
 * (counting from 0) — a response, or an I/O failure.
 */
module Retry {

  /** A response as far as the retry rule sees it: the status and the `X-Mashery-Error-Code` values. */
  datatype Response = Response(status: int, errorCodes: seq<string>)

  /** One call to `client.execute`: a response, or an `IOException`. */
  datatype Exchange = Received(response: Response) | ConnectionError

  /** What `executeRequest` reports, and how many times it executed the request. */
  datatype Report = Report(status: int, executions: nat)

  const Forbidden: int := 403
  const OverQps: string := "ERR_403_DEVELOPER_OVER_QPS"

  /** How many of the header values are the over-QPS code. */
  function CountOverQps(codes: seq<string>): (n: nat)
    ensures n <= |codes|
  {
    if codes == [] then 0
    else CountOverQps(codes[..|codes| - 1]) + (if codes[|codes| - 1] == OverQps then 1 else 0)
  }

  /** The count is the multiplicity of the over-QPS code among the header values. */
  lemma {:induction false} CountOverQpsIsMultiplicity(codes: seq<string>)
    ensures CountOverQps(codes) == multiset(codes)[OverQps]
    decreases |codes|
  {
    if codes != [] {
      var init := codes[..|codes| - 1];
      assert codes == init + [codes[|codes| - 1]];
      CountOverQpsIsMultiplicity(init);
    }
  }

  /** Re-executions the first response triggers: one per over-QPS value, and only on a 403. */
  function PlannedRetries(first: Response): (k: nat)
    ensures k <= |first.errorCodes|
    ensures k > 0 <==> first.status == Forbidden && OverQps in first.errorCodes
  {
    CountOverQpsIsMultiplicity(first.errorCodes);
    if first.status == Forbidden then CountOverQps(first.errorCodes) else 0
  }

  /** The first attempt in [lo, hi) whose execution fails, or `hi` when they all succeed. */
  function FirstFailure(t: nat -> Exchange, lo: nat, hi: nat): (f: nat)
    requires lo <= hi
    ensures lo <= f <= hi
    ensures forall j :: lo <= j < f ==> t(j).Received?
    ensures f < hi ==> t(f).ConnectionError?
    decreases hi - lo
  {
    if lo == hi then hi
    else if t(lo).ConnectionError? then lo
    else FirstFailure(t, lo + 1, hi)
  }

  /**
   * The outcome of `executeRequest` on transport `t`: the first execution, then
   * the planned re-executions until one fails. A failed execution makes the
   * reported status 0; otherwise it is the status of the last execution.
   */
  function Run(t: nat -> Exchange): (r: Report)
    ensures 1 <= r.executions
  {
    match t(0)
    case ConnectionError => Report(0, 1)
    case Received(first) =>
      var last := PlannedRetries(first);
      var f := FirstFailure(t, 1, last + 1);
      if f <= last then Report(0, f + 1)
      else Report(t(last).response.status, last + 1)
  }

  /**
   * The body of `executeRequest` from the first `execute` on: a 403 goes through
   * the over-QPS loop; any other status is reported as it is; an I/O failure ends
   * the call with the status left at 0.
   */
  method Execute(t: nat -> Exchange) returns (status: int, executions: nat, delays: nat)
    ensures Report(status, executions) == Run(t)
    ensures delays + 1 == executions
  {
    var first := t(0);
    if first.ConnectionError? {
      return 0, 1, 0;
    }
    if first.response.status == Forbidden {
      status, executions, delays := RetryOverQps(t);
    } else {
      RunCompletes(t, 0);
      status, executions, delays := first.response.status, 1, 0;
    }
  }

  /**
   * The loop of `executeRequest` over the header values of a first response with
   * status 403: each over-QPS value costs a delay and one more execution, whose
   * response becomes the current one; an I/O failure stops the loop and reports 0.
   */
  method RetryOverQps(t: nat -> Exchange) returns (status: int, executions: nat, delays: nat)
    requires t(0).Received? && t(0).response.status == Forbidden
    ensures Report(status, executions) == Run(t)
    ensures delays + 1 == executions
  {
    executions, delays := 1, 0;
    var statusCode := t(0).response.status;
    var h := t(0).response.errorCodes;
    if |h| > 0 {
      for i := 0 to |h|
        invariant executions == 1 + CountOverQps(h[..i]) == delays + 1
        invariant Succeeded(t, executions)
        invariant statusCode == t(executions - 1).response.status
      {
        CountOverQpsStep(h, i);
        CountOverQpsPrefix(h, i + 1);
        if h[i] == OverQps {
          delays := delays + 1;
          var next := t(executions);
          executions := executions + 1;
          if next.ConnectionError? {
            RunStopsAtFailure(t, executions - 1);
            return 0, executions, delays;
          }
          statusCode := next.response.status;
        }
      }
      assert h[..|h|] == h;
    }
    RunCompletes(t, executions - 1);
    status := statusCode;
  }

  /** The first `n` executions all returned a response. */
  predicate Succeeded(t: nat -> Exchange, n: nat)
  {
    forall j :: 0 <= j < n ==> t(j).Received?
  }

  /** When every planned execution succeeds, the outcome is the last one's status. */
  lemma RunCompletes(t: nat -> Exchange, k: nat)
    requires t(0).Received? && k == PlannedRetries(t(0).response)
    requires Succeeded(t, k + 1)
    ensures Run(t) == Report(t(k).response.status, k + 1)
  {
  }

  /** When planned execution `m` fails after the earlier ones succeeded, the outcome is status 0 after m + 1 executions. */
  lemma RunStopsAtFailure(t: nat -> Exchange, m: nat)
    requires t(0).Received? && 1 <= m <= PlannedRetries(t(0).response)
    requires Succeeded(t, m)
    requires t(m).ConnectionError?
    ensures Run(t) == Report(0, m + 1)
  {
  }

  /** Extending the scanned prefix by one header value adds one exactly when that value is the over-QPS code. */
  lemma CountOverQpsStep(codes: seq<string>, i: nat)
    requires i < |codes|
    ensures CountOverQps(codes[..i + 1]) == CountOverQps(codes[..i]) + (if codes[i] == OverQps then 1 else 0)
  {
    var prefix := codes[..i + 1];
    assert prefix[..|prefix| - 1] == codes[..i];
  }

  /** A prefix never holds more over-QPS values than the whole sequence. */
  lemma {:induction false} CountOverQpsPrefix(codes: seq<string>, i: nat)
    requires i <= |codes|
    ensures CountOverQps(codes[..i]) <= CountOverQps(codes)
    decreases |codes|
  {
    if i < |codes| {
      var init := codes[..|codes| - 1];
      assert codes[..i] == init[..i];
      CountOverQpsPrefix(init, i);
    } else {
      assert codes[..i] == codes;
    }
  }

  /** Any status but 403, or a 403 without the over-QPS value: one execution, and its status is returned. */
  lemma NoRetryWithoutOverQps(t: nat -> Exchange)
    requires t(0).Received?
    requires t(0).response.status != Forbidden || OverQps !in t(0).response.errorCodes
    ensures Run(t) == Report(t(0).response.status, 1)
  {
  }

  /**
   * The retry trigger in both directions: the request is executed again exactly
   * when the first response is a 403 carrying the over-QPS value.
   */
  lemma RetriedIffOverQps(t: nat -> Exchange)
    requires t(0).Received?
    ensures 1 < Run(t).executions <==>
      t(0).response.status == Forbidden && OverQps in t(0).response.errorCodes
  {
  }

  /** A 403 with k over-QPS values: 1 + k executions, and the last one's status is returned. */
  lemma RetriesOncePerOverQpsValue(t: nat -> Exchange, k: nat)
    requires t(0).Received? && t(0).response.status == Forbidden
    requires k == CountOverQps(t(0).response.errorCodes)
    requires forall j :: 1 <= j <= k ==> t(j).Received?
    ensures Run(t) == Report(t(k).response.status, k + 1)
  {
    RunCompletes(t, k);
  }

  /** Whatever happens, the call ends after at most one execution per header value of the first response. */
  lemma ExecutionsBounded(t: nat -> Exchange)
    ensures 1 <= Run(t).executions
    ensures t(0).Received? ==> Run(t).executions <= 1 + PlannedRetries(t(0).response) <= 1 + |t(0).response.errorCodes|
    ensures t(0).Received? && PlannedRetries(t(0).response) > 0 ==> 2 <= Run(t).executions
    ensures t(0).ConnectionError? ==> Run(t) == Report(0, 1)
  {
  }

  /** Two executions are alike when both fail, or both answer with the same status. */
  predicate SameStatus(a: Exchange, b: Exchange)
  {
    (a.ConnectionError? && b.ConnectionError?) ||
    (a.Received? && b.Received? && a.response.status == b.response.status)
  }

  /**
   * Only the first response's headers are examined: transports that agree on
   * the first response and on the status (or failure) of every later execution
   * give the same outcome, whatever headers the retried responses carry.
   */
  lemma LaterHeadersNeverExamined(t: nat -> Exchange, u: nat -> Exchange)
    requires t(0) == u(0)
    requires forall j :: 1 <= j ==> SameStatus(t(j), u(j))
    ensures Run(t) == Run(u)
  {
  }

  /** A 403 marked over-QPS whose retry is again a 403 over-QPS: two executions and no third. */
  lemma ExampleRetryHappensOnce()
    ensures
      var limited := Received(Response(Forbidden, [OverQps]));
      Run((n: nat) => limited) == Report(Forbidden, 2)
  {
    var limited := Received(Response(Forbidden, [OverQps]));
    var t := (n: nat) => limited;
    assert [OverQps][..0] == [];
    RetriesOncePerOverQpsValue(t, 1);
  }

  /** The over-QPS value twice in the first response: two re-executions. */
  lemma ExampleTwoOverQpsValues()
    ensures
      var t := (n: nat) => if n == 0 then Received(Response(Forbidden, [OverQps, OverQps])) else Received(Response(200, []));
      Run(t) == Report(200, 3)
  {
    var codes := [OverQps, OverQps];
    var t := (n: nat) => if n == 0 then Received(Response(Forbidden, codes)) else Received(Response(200, []));
    assert codes[..1] == [OverQps] && codes[..1][..0] == [];
    RetriesOncePerOverQpsValue(t, 2);
  }

  /** A 403 with some other error code is returned as it is. */
  lemma ExampleOtherForbidden()
    ensures
      var t := (n: nat) => if n == 0 then Received(Response(Forbidden, ["ERR_403_NOT_AUTHORIZED"])) else ConnectionError;
      Run(t) == Report(Forbidden, 1)
  {
    var t := (n: nat) => if n == 0 then Received(Response(Forbidden, ["ERR_403_NOT_AUTHORIZED"])) else ConnectionError;
    assert "ERR_403_NOT_AUTHORIZED"[8] != OverQps[8];
    NoRetryWithoutOverQps(t);
  }

  /** A retry that fails with an I/O error reports status 0, although the first execution had a status. */
  lemma ExampleFailedRetryReportsZero()
    ensures
      var t := (n: nat) => if n == 0 then Received(Response(Forbidden, [OverQps])) else ConnectionError;
      Run(t) == Report(0, 2)
  {
    var t := (n: nat) => if n == 0 then Received(Response(Forbidden, [OverQps])) else ConnectionError;
    assert [OverQps][..0] == [];
    RunStopsAtFailure(t, 1);
  }
}
