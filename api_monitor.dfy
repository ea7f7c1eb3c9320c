/**
 * The end-to-end tests' API monitor: it watches requests and responses whose
 * URL matches one of its patterns, times each request from its start, keeps
 * a log of the responses and answers questions about that log.
 */
module ApiMonitor {
  import opened Wrappers
  import opened Text

  /** One logged response. */
  datatype ApiCall = ApiCall(httpMethod: string, url: string, status: int, statusText: string, duration: Option<int>)

  const DefaultPatterns: seq<string> := ["open-meteo.com"]

  /** `apiPatterns.some(pattern => url.includes(pattern))`. */
  function ShouldMonitor(patterns: seq<string>, url: string): bool {
    if patterns == [] then false
    else Contains(url, patterns[0]) || ShouldMonitor(patterns[1..], url)
  }

  /** A URL is monitored exactly when some pattern occurs in it. */
  lemma {:induction false} ShouldMonitorIff(patterns: seq<string>, url: string)
    ensures ShouldMonitor(patterns, url) <==> exists k :: 0 <= k < |patterns| && Contains(url, patterns[k])
  {
    if patterns != [] {
      ShouldMonitorIff(patterns[1..], url);
      assert forall k :: 1 <= k < |patterns| ==> patterns[k] == patterns[1..][k - 1];
      if exists k :: 0 <= k < |patterns| && Contains(url, patterns[k]) {
        var k :| 0 <= k < |patterns| && Contains(url, patterns[k]);
        if k > 0 {
          assert Contains(url, patterns[1..][k - 1]);
        }
      }
    }
  }

  /** The key of the start-time map: `${method}-${url}`. */
  function RequestId(httpMethod: string, url: string): string {
    httpMethod + "-" + url
  }

  /** `startTime ? now - startTime : undefined`: a missing or zero start time gives no duration. */
  function Duration(startTimes: map<string, int>, id: string, now: int): Option<int> {
    if id in startTimes && startTimes[id] != 0 then Some(now - startTimes[id]) else None
  }

  const Success := "\U{2705}"
  const Redirect := "\U{1F504}"
  const ClientError := "\U{26A0}\U{FE0F}"
  const ServerError := "\U{274C}"
  const Informational := "\U{1F4E5}"

  /** `getStatusEmoji`. */
  function StatusEmoji(status: int): string {
    if 200 <= status < 300 then Success
    else if 300 <= status < 400 then Redirect
    else if 400 <= status < 500 then ClientError
    else if status >= 500 then ServerError
    else Informational
  }

  /** The five emojis partition the statuses: [200,300), [300,400), [400,500), 500 and
      above, and below 200. */
  lemma StatusEmojiPartition(status: int)
    ensures StatusEmoji(status) == Success <==> 200 <= status < 300
    ensures StatusEmoji(status) == Redirect <==> 300 <= status < 400
    ensures StatusEmoji(status) == ClientError <==> 400 <= status < 500
    ensures StatusEmoji(status) == ServerError <==> status >= 500
    ensures StatusEmoji(status) == Informational <==> status < 200
  {
    assert Success[0] != Redirect[0] && Success[0] != ClientError[0] && Success[0] != ServerError[0];
    assert Success[0] != Informational[0] && Redirect[0] != ClientError[0] && Redirect[0] != ServerError[0];
    assert Redirect[0] != Informational[0] && ClientError[0] != ServerError[0];
    assert ClientError[0] != Informational[0] && ServerError[0] != Informational[0];
  }

  predicate IsFailed(call: ApiCall) { call.status >= 400 }

  predicate IsSuccessful(call: ApiCall) { 200 <= call.status < 400 }

  /** `apiCalls.filter(call => call.status >= 400)`. */
  function FailedCalls(calls: seq<ApiCall>): seq<ApiCall> {
    if calls == [] then []
    else (if IsFailed(calls[0]) then [calls[0]] else []) + FailedCalls(calls[1..])
  }

  /** `apiCalls.filter(c => c.status >= 200 && c.status < 400)`, counted in the summary. */
  function SuccessfulCalls(calls: seq<ApiCall>): seq<ApiCall> {
    if calls == [] then []
    else (if IsSuccessful(calls[0]) then [calls[0]] else []) + SuccessfulCalls(calls[1..])
  }

  /** `apiCalls.every(call => call.status >= 200 && call.status < 400)`. */
  predicate AllSuccessful(calls: seq<ApiCall>) {
    forall k :: 0 <= k < |calls| ==> IsSuccessful(calls[k])
  }

  /** The failed calls are exactly the logged calls with status 400 or above. */
  lemma {:induction false} FailedCallsMembers(calls: seq<ApiCall>)
    ensures |FailedCalls(calls)| <= |calls|
    ensures forall c :: c in FailedCalls(calls) <==> c in calls && IsFailed(c)
  {
    if calls != [] {
      FailedCallsMembers(calls[1..]);
      assert forall c :: c in calls <==> c == calls[0] || c in calls[1..];
    }
  }

  /** Filtering keeps the recorded order: it distributes over concatenation. */
  lemma {:induction false} FailedCallsAppend(a: seq<ApiCall>, b: seq<ApiCall>)
    ensures FailedCalls(a + b) == FailedCalls(a) + FailedCalls(b)
  {
    if a == [] {
      assert a + b == b;
    } else {
      assert (a + b)[0] == a[0] && (a + b)[1..] == a[1..] + b;
      FailedCallsAppend(a[1..], b);
    }
  }

  /** No call is counted both as successful and as failed, and the two counts of the
      summary add up to the total exactly when no status is below 200. */
  lemma {:induction false} SummaryCounts(calls: seq<ApiCall>)
    ensures |SuccessfulCalls(calls)| + |FailedCalls(calls)| <= |calls|
    ensures |SuccessfulCalls(calls)| + |FailedCalls(calls)| == |calls|
        <==> forall k :: 0 <= k < |calls| ==> calls[k].status >= 200
  {
    if calls != [] {
      SummaryCounts(calls[1..]);
      assert forall k :: 1 <= k < |calls| ==> calls[k] == calls[1..][k - 1];
    }
  }

  /** All calls successful implies none failed; the converse fails only for a call
      with a status below 200, which is neither. */
  lemma AllSuccessfulIff(calls: seq<ApiCall>)
    ensures AllSuccessful(calls) <==> FailedCalls(calls) == [] && forall k :: 0 <= k < |calls| ==> calls[k].status >= 200
  {
    FailedCallsMembers(calls);
    if FailedCalls(calls) != [] {
      assert FailedCalls(calls)[0] in FailedCalls(calls);
    }
    if !AllSuccessful(calls) && FailedCalls(calls) == [] {
      var k :| 0 <= k < |calls| && !IsSuccessful(calls[k]);
      assert calls[k] in calls;
    }
  }

  class Monitor {
    const apiPatterns: seq<string>
    var apiCalls: seq<ApiCall>
    var requestStartTimes: map<string, int>

    /** A new monitor with an empty log; the patterns default to `DefaultPatterns`. */
    constructor (apiPatterns: seq<string> := DefaultPatterns)
      ensures this.apiPatterns == apiPatterns && apiCalls == [] && requestStartTimes == map[]
    {
      this.apiPatterns := apiPatterns;
      apiCalls := [];
      requestStartTimes := map[];
    }

    /** The request listener, at time `now`. */
    method OnRequest(now: int, httpMethod: string, url: string)
      modifies this
      ensures apiCalls == old(apiCalls)
      ensures ShouldMonitor(apiPatterns, url) ==>
        requestStartTimes == old(requestStartTimes)[RequestId(httpMethod, url) := now]
      ensures !ShouldMonitor(apiPatterns, url) ==> requestStartTimes == old(requestStartTimes)
    {
      if ShouldMonitor(apiPatterns, url) {
        requestStartTimes := requestStartTimes[RequestId(httpMethod, url) := now];
      }
    }

    /** The response listener, at time `now`: a monitored response appends one record
        and forgets its request's start time. */
    method OnResponse(now: int, httpMethod: string, url: string, status: int, statusText: string)
      modifies this
      ensures ShouldMonitor(apiPatterns, url) ==>
        && apiCalls == old(apiCalls) + [ApiCall(httpMethod, url, status, statusText,
                                                Duration(old(requestStartTimes), RequestId(httpMethod, url), now))]
        && requestStartTimes == old(requestStartTimes) - {RequestId(httpMethod, url)}
      ensures !ShouldMonitor(apiPatterns, url) ==>
        apiCalls == old(apiCalls) && requestStartTimes == old(requestStartTimes)
    {
      if ShouldMonitor(apiPatterns, url) {
        var requestId := RequestId(httpMethod, url);
        var duration := Duration(requestStartTimes, requestId, now);
        apiCalls := apiCalls + [ApiCall(httpMethod, url, status, statusText, duration)];
        requestStartTimes := requestStartTimes - {requestId};
      }
    }

    /** `getApiCalls`: the logged calls in order, as a new sequence; changing that
        sequence does not change the log. */
    method GetApiCalls() returns (calls: seq<ApiCall>)
      ensures calls == apiCalls
    {
      calls := apiCalls;
    }

    /** `getFailedCalls`: the logged calls with status 400 or above, in order. */
    method GetFailedCalls() returns (failed: seq<ApiCall>)
      ensures forall c :: c in failed <==> c in apiCalls && c.status >= 400
      ensures failed == FailedCalls(apiCalls)
    {
      failed := FailedCalls(apiCalls);
      FailedCallsMembers(apiCalls);
    }

    /** `allCallsSuccessful`: every logged status lies in [200, 400); true of an empty log. */
    method AllCallsSuccessful() returns (ok: bool)
      ensures ok == AllSuccessful(apiCalls)
    {
      ok := AllSuccessful(apiCalls);
    }

    /** `clear`: both the log and the start times are emptied. */
    method Clear()
      modifies this
      ensures apiCalls == [] && requestStartTimes == map[]
    {
      apiCalls := [];
      requestStartTimes := map[];
    }
  }

  /** A monitored request followed by its response: the response is logged with the
      time elapsed since the request, and the request's start time is forgotten. */
  method RequestThenResponse(m: Monitor, t0: int, t1: int, httpMethod: string, url: string,
                             status: int, statusText: string)
    requires ShouldMonitor(m.apiPatterns, url) && t0 != 0
    modifies m
    ensures m.apiCalls == old(m.apiCalls) + [ApiCall(httpMethod, url, status, statusText, Some(t1 - t0))]
    ensures m.requestStartTimes == old(m.requestStartTimes) - {RequestId(httpMethod, url)}
  {
    m.OnRequest(t0, httpMethod, url);
    m.OnResponse(t1, httpMethod, url, status, statusText);
  }

  /** A monitored response whose request was never seen is logged without a duration. */
  method ResponseWithoutRequest(m: Monitor, t1: int, httpMethod: string, url: string,
                                status: int, statusText: string)
    requires ShouldMonitor(m.apiPatterns, url) && RequestId(httpMethod, url) !in m.requestStartTimes
    modifies m
    ensures m.apiCalls == old(m.apiCalls) + [ApiCall(httpMethod, url, status, statusText, None)]
    ensures m.requestStartTimes == old(m.requestStartTimes)
  {
    m.OnResponse(t1, httpMethod, url, status, statusText);
  }
}
