/**
  The machinery the three direct-vendor adapters (OpenAI, Claude, Gemini)
  share: what a `catch` clause can receive, the reachability probe run
  before the first request, the three-attempt retry loop with linear
  back-off, the first-marker table that turns an error message into a
  user-facing one, and the composition of the four steps.

  Each vendor module supplies its own key check, probe target name,
  per-attempt interpretation of the HTTP exchange, terminal markers and
  marker table.
 */
module Adapter {
  import opened Results
  import opened Strings
  import opened Base

  // ------------------------------------------------------- thrown values

  /** A value a `catch` clause receives: an `Error` (name and message) or anything else. */
  datatype Thrown = ErrorValue(name: string, message: string) | OtherValue(text: string)

  /**
    The message of `error instanceof Error ? error : new Error(String(error))`:
    an error keeps its message, any other value is rendered with `String`.
   */
  function MessageOf(t: Thrown): string {
    match t
    case ErrorValue(_, message) => message
    case OtherValue(text) => text
  }

  /** `String(error)`: for an `Error`, `Error.prototype.toString` joins name and message. */
  function Describe(t: Thrown): (r: string)
    ensures t.ErrorValue? && t.name != "" && t.message != "" ==> r == t.name + ": " + t.message
    ensures t.ErrorValue? && t.name == "" ==> r == t.message
    ensures t.ErrorValue? && t.message == "" ==> r == t.name
    ensures t.OtherValue? ==> r == t.text
  {
    match t
    case ErrorValue(name, message) =>
      if name == "" then message else if message == "" then name else name + ": " + message
    case OtherValue(text) => text
  }

  // ------------------------------------------------------- one HTTP exchange

  /** The outcome of `response.json()`: a decoded body or the syntax error it throws. */
  datatype Parsed<B> = Valid(body: B) | Invalid(syntaxError: string)

  /**
    One `fetch` of a vendor endpoint: either the promise rejects (network
    failure, the 30-second abort) or a response arrives with its status, its
    text (read only when the status is not OK; a failed read leaves `""`)
    and its decoded JSON (read only when the status is OK).
   */
  datatype Exchange<B> =
    | Rejected(thrown: Thrown)
    | Answered(status: int, text: string, json: Parsed<B>)

  /**
    The `TypeError` the engine throws for reading property `name` of
    `undefined` or `null` (`holder` is the word it uses for the value).
   */
  function ReadError(holder: string, name: string): Thrown {
    ErrorValue("TypeError", "Cannot read properties of " + holder + " (reading '" + name + "')")
  }

  /** `response.ok`. */
  predicate IsOk(status: int) {
    200 <= status <= 299
  }

  // ------------------------------------------------------- reachability probe

  /** The outcome of the probe `fetch` (a GET on a public endpoint with an 8-second abort). */
  datatype ProbeOutcome = ProbeAnswered(status: int) | ProbeRejected(thrown: Thrown)

  const ProbeTimeoutMessage := "連接超時，請檢查網路速度"
  const ProbeFirewallMessage := "網路錯誤，請檢查防火牆設定"
  const ProbeUnknownMessage := "未知網路錯誤"

  /** The probe's failure message when fetch cannot reach the host at all. */
  function ProbeUnreachableMessage(apiName: string): string {
    "無法連接到 " + apiName + " API，請檢查網路設定"
  }

  /**
    The probe's verdict: `None` when the host answered with a status in
    [200, 500) — a 401 without a key counts as reachable — and otherwise
    the error text the adapter reports.
   */
  function ProbeError(probe: ProbeOutcome, apiName: string): (r: Option<string>)
    ensures r.None? <==> probe.ProbeAnswered? && 200 <= probe.status < 500
    ensures probe.ProbeAnswered? && r.Some? ==> r.value == "伺服器回應異常 (" + IntToString(probe.status) + ")"
    ensures probe.ProbeRejected? && probe.thrown.OtherValue? ==> r == Some(ProbeUnknownMessage)
    ensures probe.ProbeRejected? && probe.thrown.ErrorValue? && probe.thrown.name == "AbortError" ==>
              r == Some(ProbeTimeoutMessage)
    ensures probe.ProbeRejected? && probe.thrown.ErrorValue? && probe.thrown.name != "AbortError" ==>
              r == Some(if Contains(probe.thrown.message, "Failed to fetch") then ProbeUnreachableMessage(apiName)
                        else if Contains(probe.thrown.message, "NetworkError") then ProbeFirewallMessage
                        else probe.thrown.message)
  {
    match probe
    case ProbeAnswered(status) =>
      if 200 <= status < 500 then None else Some("伺服器回應異常 (" + IntToString(status) + ")")
    case ProbeRejected(ErrorValue(name, message)) =>
      if name == "AbortError" then Some(ProbeTimeoutMessage)
      else if Contains(message, "Failed to fetch") then Some(ProbeUnreachableMessage(apiName))
      else if Contains(message, "NetworkError") then Some(ProbeFirewallMessage)
      else Some(message)
    case ProbeRejected(OtherValue(_)) => Some(ProbeUnknownMessage)
  }

  /** A host the browser cannot reach at all is reported with the API's name, whatever that name is. */
  lemma UnreachableProbeNamesApi(apiName: string)
    ensures var r := ProbeError(ProbeRejected(ErrorValue("TypeError", "Failed to fetch")), apiName);
            r == Some(ProbeUnreachableMessage(apiName)) && Contains(r.value, apiName)
  {
    ContainsSelf("Failed to fetch");
    ContainsMiddle("無法連接到 ", apiName, " API，請檢查網路設定");
  }

  /** Prefix of the reply error when the probe fails. */
  const ProbeFailurePrefix := "網路連接問題: "

  // ------------------------------------------------------- retry loop

  const MaxAttempts: nat := 3
  const BackoffStepMs: nat := 2000

  /**
    What each of the three attempts would come to, for a vendor whose loop
    body is `attempt` and whose successive `fetch` calls are `exchanges`.
   */
  function Outcomes<B>(exchanges: seq<Exchange<B>>, attempt: Exchange<B> -> Result<string, string>)
    : (o: seq<Result<string, string>>)
    requires |exchanges| >= MaxAttempts
    ensures |o| == MaxAttempts && forall k :: 0 <= k < MaxAttempts ==> o[k] == attempt(exchanges[k])
  {
    seq(MaxAttempts, k requires 0 <= k < MaxAttempts => attempt(exchanges[k]))
  }

  /** The wait after failed attempt `attempt` (1-based) before the next one. */
  function Backoff(attempt: nat): nat {
    attempt * BackoffStepMs
  }

  /**
    A run of the retry loop: the value returned or the message of the error
    thrown, how many requests were sent, and the waits between them.
   */
  datatype RetryRun = RetryRun(result: Result<string, string>, calls: nat, delays: seq<nat>)

  /** Every wait is the linear back-off of the attempt it follows. */
  predicate LinearBackoff(delays: seq<nat>) {
    forall i :: 0 <= i < |delays| ==> delays[i] == Backoff(i + 1)
  }

  /**
    The loop from attempt `attempt` on, with `delays` already waited.
    `outcomes[k]` is what attempt `k + 1` would produce: a reply or the
    message of the error it throws. A failure whose message is terminal
    is rethrown at once; any other failure waits and retries until the
    third attempt, whose failure is rethrown.
   */
  function RetryFrom(attempt: nat, outcomes: seq<Result<string, string>>, terminal: string -> bool,
                     delays: seq<nat>): (run: RetryRun)
    requires 1 <= attempt <= MaxAttempts <= |outcomes|
    requires |delays| == attempt - 1 && LinearBackoff(delays)
    ensures attempt <= run.calls <= MaxAttempts
    ensures |run.delays| == run.calls - 1 && LinearBackoff(run.delays)
    ensures run.result == outcomes[run.calls - 1]
    ensures forall k :: attempt - 1 <= k < run.calls - 1 ==> outcomes[k].Failure? && !terminal(outcomes[k].error)
    ensures run.calls < MaxAttempts ==>
              outcomes[run.calls - 1].Success? || terminal(outcomes[run.calls - 1].error)
    decreases MaxAttempts - attempt
  {
    var outcome := outcomes[attempt - 1];
    if outcome.Success? || terminal(outcome.error) || attempt == MaxAttempts then
      RetryRun(outcome, attempt, delays)
    else
      RetryFrom(attempt + 1, outcomes, terminal, delays + [Backoff(attempt)])
  }

  /**
    The whole loop. The number of calls is determined by the outcomes: it
    is one more than the number of leading non-terminal failures, capped at
    three, and the result is the outcome of the last call.
   */
  function Retry(outcomes: seq<Result<string, string>>, terminal: string -> bool): (run: RetryRun)
    requires MaxAttempts <= |outcomes|
    ensures 1 <= run.calls <= MaxAttempts
    ensures |run.delays| == run.calls - 1 && LinearBackoff(run.delays)
    ensures run.result == outcomes[run.calls - 1]
    ensures forall k :: 0 <= k < run.calls - 1 ==> outcomes[k].Failure? && !terminal(outcomes[k].error)
    ensures run.calls < MaxAttempts ==>
              outcomes[run.calls - 1].Success? || terminal(outcomes[run.calls - 1].error)
  {
    RetryFrom(1, outcomes, terminal, [])
  }

  /** A terminal failure on the first attempt sends exactly one request and never waits. */
  lemma TerminalFirstIsSingleCall(outcomes: seq<Result<string, string>>, terminal: string -> bool)
    requires MaxAttempts <= |outcomes|
    requires outcomes[0].Failure? && terminal(outcomes[0].error)
    ensures Retry(outcomes, terminal) == RetryRun(outcomes[0], 1, [])
  {
  }

  /** Two transient failures then a reply: three requests, waits of 2000 ms and 4000 ms. */
  lemma TransientThenSuccess(outcomes: seq<Result<string, string>>, terminal: string -> bool)
    requires MaxAttempts <= |outcomes|
    requires outcomes[0].Failure? && !terminal(outcomes[0].error)
    requires outcomes[1].Failure? && !terminal(outcomes[1].error)
    requires outcomes[2].Success?
    ensures Retry(outcomes, terminal) == RetryRun(outcomes[2], 3, [2000, 4000])
  {
  }

  /** Three transient failures: the error of the third is rethrown after three requests. */
  lemma AllTransientRethrowsLast(outcomes: seq<Result<string, string>>, terminal: string -> bool)
    requires MaxAttempts <= |outcomes|
    requires forall k :: 0 <= k < MaxAttempts ==> outcomes[k].Failure? && !terminal(outcomes[k].error)
    ensures Retry(outcomes, terminal) == RetryRun(outcomes[2], 3, [2000, 4000])
  {
  }

  // ------------------------------------------------------- handleError

  /** One row of a `handleError` chain: a substring to look for and the message it selects. */
  datatype Marker = Marker(needle: string, userMessage: string)

  const DefaultErrorMessage := "生成回覆時發生錯誤"

  /** The index of the first row (from `from` on) whose needle occurs in `message`. */
  function FirstMarker(message: string, table: seq<Marker>, from: nat): (r: Option<nat>)
    requires from <= |table|
    ensures r.Some? ==> from <= r.value < |table| && Contains(message, table[r.value].needle)
    ensures r.Some? ==> forall j :: from <= j < r.value ==> !Contains(message, table[j].needle)
    ensures r.None? ==> forall j :: from <= j < |table| ==> !Contains(message, table[j].needle)
    decreases |table| - from
  {
    if from == |table| then None
    else if Contains(message, table[from].needle) then Some(from)
    else FirstMarker(message, table, from + 1)
  }

  /** The user-facing text an error message maps to: the first matching row, else the default. */
  function MarkerMessage(message: string, table: seq<Marker>): (r: string)
    ensures (exists k :: 0 <= k < |table| && Contains(message, table[k].needle)) ==>
              exists k :: 0 <= k < |table| && r == table[k].userMessage && Contains(message, table[k].needle)
                       && forall j :: 0 <= j < k ==> !Contains(message, table[j].needle)
    ensures (forall k :: 0 <= k < |table| ==> !Contains(message, table[k].needle)) ==> r == DefaultErrorMessage
  {
    match FirstMarker(message, table, 0)
    case Some(k) => table[k].userMessage
    case None => DefaultErrorMessage
  }

  lemma {:induction false} FirstMarkerFrom(message: string, table: seq<Marker>, from: nat, k: nat)
    requires from <= k < |table| && Contains(message, table[k].needle)
    requires forall j :: from <= j < k ==> !Contains(message, table[j].needle)
    ensures FirstMarker(message, table, from) == Some(k)
    decreases k - from
  {
    if from < k {
      FirstMarkerFrom(message, table, from + 1, k);
    }
  }

  /** The row that decides: the first one whose needle occurs. */
  lemma MarkerMessageAt(message: string, table: seq<Marker>, k: nat)
    requires k < |table| && Contains(message, table[k].needle)
    requires forall j :: 0 <= j < k ==> !Contains(message, table[j].needle)
    ensures MarkerMessage(message, table) == table[k].userMessage
  {
    FirstMarkerFrom(message, table, 0, k);
  }

  /** A message holding the first row's needle gets the first row's text. */
  lemma FirstRowWins(message: string, table: seq<Marker>)
    requires |table| > 0 && Contains(message, table[0].needle)
    ensures MarkerMessage(message, table) == table[0].userMessage
  {
    assert FirstMarker(message, table, 0) == Some(0);
  }

  /**
    `handleError`: an `Error` is mapped through the table and its message
    becomes the debug info; any other value gets the default text and an
    empty debug info.
   */
  function HandleError(t: Thrown, table: seq<Marker>): (r: ReplyResponse)
    ensures r.Failed? && r.debugInfo.Some?
    ensures t.ErrorValue? ==> r.error == MarkerMessage(t.message, table) && r.debugInfo == Some(t.message)
    ensures t.OtherValue? ==> r == Failed(DefaultErrorMessage, Some(""))
  {
    match t
    case ErrorValue(_, message) => Failed(MarkerMessage(message, table), Some(message))
    case OtherValue(_) => Failed(DefaultErrorMessage, Some(""))
  }

  // ------------------------------------------------------- OpenAI and Claude error markers

  /** Markers the OpenAI and Claude adapters put into error messages and look for again. */
  const InvalidKeyMarker := "invalid_api_key"
  const QuotaMarker := "insufficient_quota"
  const RateLimitMarker := "rate_limit_exceeded"
  const NetworkMarker := "NETWORK_ERROR"

  /** The OpenAI and Claude retry loops give up at once on a message with one of these markers. */
  predicate KeyQuotaOrRate(message: string) {
    Contains(message, InvalidKeyMarker) || Contains(message, QuotaMarker) || Contains(message, RateLimitMarker)
  }

  const BadRequestPrefix := "請求參數錯誤 (400): "
  const AccessDeniedMessage := "API 訪問被拒絕，請檢查 API Key 權限"

  /** `API 請求失敗: ${status}`, the message for a status no branch names. */
  function RequestFailedMessage(status: int): string {
    "API 請求失敗: " + IntToString(status)
  }

  /** `NETWORK_ERROR: ${server} API 伺服器錯誤 (${status})`. */
  function ServerErrorMessage(server: string, status: int): string {
    NetworkMarker + ": " + server + " API 伺服器錯誤 (" + IntToString(status) + ")"
  }

  /**
    `createHttpError` of the OpenAI and Claude adapters (identical but for
    the server label): the message of the error a non-OK response becomes.
   */
  function StatusError(server: string, status: int, text: string): (r: string)
    ensures status == 400 && Contains(text, InvalidKeyMarker) ==> r == InvalidKeyMarker
    ensures status == 400 && !Contains(text, InvalidKeyMarker) ==> r == BadRequestPrefix + text
    ensures status == 401 ==> r == InvalidKeyMarker
    ensures status == 403 && Contains(text, QuotaMarker) ==> r == QuotaMarker
    ensures status == 403 && !Contains(text, QuotaMarker) ==> r == AccessDeniedMessage
    ensures status == 429 ==> r == RateLimitMarker
    ensures status in {500, 502, 503, 504} ==> r == ServerErrorMessage(server, status) && Contains(r, NetworkMarker)
    ensures status !in {400, 401, 403, 429, 500, 502, 503, 504} ==> r == RequestFailedMessage(status)
  {
    if status == 400 then
      (if Contains(text, InvalidKeyMarker) then InvalidKeyMarker else BadRequestPrefix + text)
    else if status == 401 then InvalidKeyMarker
    else if status == 403 then
      (if Contains(text, QuotaMarker) then QuotaMarker else AccessDeniedMessage)
    else if status == 429 then RateLimitMarker
    else if status in {500, 502, 503, 504} then
      var m := ServerErrorMessage(server, status);
      assert m == NetworkMarker + (": " + server + " API 伺服器錯誤 (" + IntToString(status) + ")");
      ContainsSelf(NetworkMarker);
      ContainsInPrefix(NetworkMarker, ": " + server + " API 伺服器錯誤 (" + IntToString(status) + ")", NetworkMarker);
      m
    else RequestFailedMessage(status)
  }

  /** One letter of each marker: a string without them holds no marker. */
  const MarkerChars: set<char> := {'v', 'q', 'x'}

  lemma NoMarkerWithoutChars(s: string)
    requires Avoids(s, MarkerChars)
    ensures !KeyQuotaOrRate(s)
  {
    AvoidsExcludes(s, InvalidKeyMarker, MarkerChars, 2);
    AvoidsExcludes(s, QuotaMarker, MarkerChars, 13);
    AvoidsExcludes(s, RateLimitMarker, MarkerChars, 12);
  }

  /** The 400 message holds a marker exactly when the response text does. */
  lemma BadRequestMarkers(text: string)
    ensures KeyQuotaOrRate(BadRequestPrefix + text) <==> KeyQuotaOrRate(text)
  {
    var p := BadRequestPrefix;
    BadRequestPrefixShape();
    MarkerShapes();
    PrefixKeepsMarker(p, text, InvalidKeyMarker, 2);
    PrefixKeepsMarker(p, text, QuotaMarker, 13);
    PrefixKeepsMarker(p, text, RateLimitMarker, 12);
  }

  lemma BadRequestPrefixShape()
    ensures Avoids(BadRequestPrefix, MarkerChars) && BadRequestPrefix[|BadRequestPrefix| - 1] == ' '
  {
    assert Avoids(BadRequestPrefix, MarkerChars);
  }

  /** No marker holds a space, and each has a marker letter at a known place. */
  lemma MarkerShapes()
    ensures ' ' !in InvalidKeyMarker && InvalidKeyMarker[2] in MarkerChars
    ensures ' ' !in QuotaMarker && QuotaMarker[13] in MarkerChars
    ensures ' ' !in RateLimitMarker && RateLimitMarker[12] in MarkerChars
  {
  }

  /** A prefix without marker letters, ending in a character the marker lacks, neither adds nor hides it. */
  lemma PrefixKeepsMarker(p: string, text: string, marker: string, k: nat)
    requires |p| > 0 && Avoids(p, MarkerChars) && p[|p| - 1] !in marker
    requires k < |marker| && marker[k] in MarkerChars
    ensures Contains(p + text, marker) <==> Contains(text, marker)
  {
    AvoidsExcludes(p, marker, MarkerChars, k);
    PrefixedContains(p, text, marker);
  }

  /** The 5xx message of a server label without marker letters holds no marker. */
  lemma ServerErrorUnmarked(server: string, status: int)
    requires Avoids(server, MarkerChars)
    ensures !KeyQuotaOrRate(ServerErrorMessage(server, status))
  {
    var head, tag := NetworkMarker + ": ", " API 伺服器錯誤 (";
    var n := IntToString(status);
    assert Avoids(head + server, MarkerChars) by {
      assert Avoids(head, MarkerChars);
      AvoidsAppend(head, server, MarkerChars);
    }
    assert Avoids(head + server + tag, MarkerChars) by {
      assert Avoids(tag, MarkerChars);
      AvoidsAppend(head + server, tag, MarkerChars);
    }
    assert Avoids(head + server + tag + n, MarkerChars) by {
      IntToStringAvoids(status, MarkerChars);
      AvoidsAppend(head + server + tag, n, MarkerChars);
    }
    assert Avoids(head + server + tag + n + ")", MarkerChars) by {
      assert Avoids(")", MarkerChars);
      AvoidsAppend(head + server + tag + n, ")", MarkerChars);
    }
    NoMarkerWithoutChars(ServerErrorMessage(server, status));
  }

  /** The catch-all status message holds no marker. */
  lemma RequestFailedUnmarked(status: int)
    ensures !KeyQuotaOrRate(RequestFailedMessage(status))
  {
    IntToStringAvoids(status, MarkerChars);
    RequestFailedHeadAvoids();
    AvoidsAppend("API 請求失敗: ", IntToString(status), MarkerChars);
    NoMarkerWithoutChars(RequestFailedMessage(status));
  }

  lemma RequestFailedHeadAvoids()
    ensures Avoids("API 請求失敗: ", MarkerChars)
  {
    assert Avoids("API 請求失敗: ", MarkerChars);
  }

  lemma MarkersAreTerminal()
    ensures KeyQuotaOrRate(InvalidKeyMarker) && KeyQuotaOrRate(QuotaMarker) && KeyQuotaOrRate(RateLimitMarker)
    ensures !KeyQuotaOrRate(AccessDeniedMessage)
  {
    ContainsSelf(InvalidKeyMarker);
    ContainsSelf(QuotaMarker);
    ContainsSelf(RateLimitMarker);
    assert Avoids(AccessDeniedMessage, MarkerChars);
    NoMarkerWithoutChars(AccessDeniedMessage);
  }

  /**
    Which non-OK responses stop the OpenAI and Claude retry loops at once:
    401 and 429 always, 403 when the text reports an exhausted quota, 400
    when the text holds one of the markers; every other status (the 5xx
    server errors included) is retried.
   */
  lemma StatusErrorTerminal(server: string, status: int, text: string)
    requires Avoids(server, MarkerChars)
    ensures KeyQuotaOrRate(StatusError(server, status, text)) <==>
              status == 401 || status == 429
              || (status == 403 && Contains(text, QuotaMarker))
              || (status == 400 && KeyQuotaOrRate(text))
  {
    MarkersAreTerminal();
    if status == 400 {
      BadRequestMarkers(text);
    } else if status in {500, 502, 503, 504} {
      ServerErrorUnmarked(server, status);
    } else if status !in {401, 403, 429} {
      RequestFailedUnmarked(status);
    }
  }

  /** The `handleError` chain of the OpenAI and Claude adapters, with the vendor's name in it. */
  function KeyQuotaRateTable(vendor: string): (table: seq<Marker>)
    ensures |table| == 7
    ensures table[0].needle == InvalidKeyMarker && table[3].needle == NetworkMarker
  {
    [ Marker(InvalidKeyMarker, vendor + InvalidKeyAdvice),
      Marker(QuotaMarker, vendor + " API 使用額度不足，請檢查帳戶餘額"),
      Marker(RateLimitMarker, vendor + RateLimitAdvice),
      Marker(NetworkMarker, NetworkErrorMessage),
      Marker("Failed to fetch", "無法連接到 " + vendor + " API，請檢查網路連線"),
      Marker("請求超時", TimeoutErrorMessage),
      Marker("aborted", AbortedErrorMessage) ]
  }

  /** The rate-limit marker passes the key and quota rows and selects the vendor's rate-limit text. */
  lemma RateRowWins(vendor: string)
    ensures MarkerMessage(RateLimitMarker, KeyQuotaRateTable(vendor)) == vendor + RateLimitAdvice
  {
    var table := KeyQuotaRateTable(vendor);
    RateLimitLacksOtherMarkers();
    ContainsSelf(RateLimitMarker);
    MarkerMessageAt(RateLimitMarker, table, 2);
  }

  lemma RateLimitLacksOtherMarkers()
    ensures !Contains(RateLimitMarker, InvalidKeyMarker) && !Contains(RateLimitMarker, QuotaMarker)
  {
    assert Avoids(RateLimitMarker, {'v', 'q'});
    AvoidsExcludes(RateLimitMarker, InvalidKeyMarker, {'v', 'q'}, 2);
    AvoidsExcludes(RateLimitMarker, QuotaMarker, {'v', 'q'}, 13);
  }

  /** What follows the vendor's name when its key is rejected. */
  const InvalidKeyAdvice := " API Key 無效，請前往設定頁面檢查"
  /** What follows the vendor's name when requests come too often. */
  const RateLimitAdvice := " API 請求頻率超限，請稍後再試"
  const NetworkErrorMessage := "網路連接錯誤，請檢查網路連線"
  const TimeoutErrorMessage := "API 請求超時，請檢查網路速度或稍後再試"
  const AbortedErrorMessage := "請求被中斷，請稍後再試"

  // ------------------------------------------------------- the composed adapter

  /** What a vendor adapter's `generateReply` does, and the traffic it causes. */
  datatype AdapterRun = AdapterRun(response: ReplyResponse, probed: bool, calls: nat, delays: seq<nat>)

  /**
    `generateReply` of a direct-vendor adapter: key shape check, then the
    probe, then the retry loop; a thrown error goes through `handleError`.
   */
  function Generate(keyOk: bool, keyError: string, probe: ProbeOutcome, apiName: string,
                    outcomes: seq<Result<string, string>>, terminal: string -> bool,
                    table: seq<Marker>): (run: AdapterRun)
    requires MaxAttempts <= |outcomes|
    ensures !keyOk ==> run == AdapterRun(Failed(keyError, None), false, 0, [])
    ensures keyOk ==> run.probed
    ensures keyOk && ProbeError(probe, apiName).Some? ==>
              run == AdapterRun(Failed(ProbeFailurePrefix + ProbeError(probe, apiName).value, None), true, 0, [])
    ensures run.calls <= MaxAttempts && LinearBackoff(run.delays)
    ensures run.calls > 0 ==> |run.delays| == run.calls - 1
    ensures run.response.Replied? <==>
              keyOk && ProbeError(probe, apiName).None? && Retry(outcomes, terminal).result.Success?
    ensures run.response.Replied? ==> run.response.reply == Retry(outcomes, terminal).result.value
    ensures keyOk && ProbeError(probe, apiName).None? && Retry(outcomes, terminal).result.Failure? ==>
              run.response == HandleError(ErrorValue("Error", Retry(outcomes, terminal).result.error), table)
    ensures AdapterContract(run, keyOk, keyError, probe, apiName, outcomes, terminal, table)
  {
    if !keyOk then AdapterRun(Failed(keyError, None), false, 0, [])
    else match ProbeError(probe, apiName)
      case Some(e) => AdapterRun(Failed(ProbeFailurePrefix + e, None), true, 0, [])
      case None =>
        var r := Retry(outcomes, terminal);
        var response := match r.result
          case Success(reply) => Replied(reply)
          case Failure(message) => HandleError(ErrorValue("Error", message), table);
        AdapterRun(response, true, r.calls, r.delays)
  }

  /**
    What `generateReply` of a direct-vendor adapter promises, stated on the
    attempts' outcomes rather than on the loop: a malformed key or a failed
    probe answers without a request; otherwise the requests stop at the
    first reply or terminal failure, or after the third, with linear waits
    in between, and the last attempt decides the response — its reply, or
    its error message mapped through the vendor's table.
   */
  ghost predicate AdapterContract(run: AdapterRun, keyOk: bool, keyError: string, probe: ProbeOutcome, apiName: string,
                                  outcomes: seq<Result<string, string>>, terminal: string -> bool, table: seq<Marker>)
    requires MaxAttempts <= |outcomes|
  {
    && (!keyOk ==> run == AdapterRun(Failed(keyError, None), false, 0, []))
    && (keyOk && ProbeError(probe, apiName).Some? ==>
          run == AdapterRun(Failed(ProbeFailurePrefix + ProbeError(probe, apiName).value, None), true, 0, []))
    && (keyOk && ProbeError(probe, apiName).None? ==>
          && run.probed && 1 <= run.calls <= MaxAttempts
          && |run.delays| == run.calls - 1 && LinearBackoff(run.delays)
          && (forall k :: 0 <= k < run.calls - 1 ==> outcomes[k].Failure? && !terminal(outcomes[k].error))
          && (run.calls < MaxAttempts ==> outcomes[run.calls - 1].Success? || terminal(outcomes[run.calls - 1].error))
          && (outcomes[run.calls - 1].Success? ==> run.response == Replied(outcomes[run.calls - 1].value))
          && (outcomes[run.calls - 1].Failure? ==>
                run.response == Failed(MarkerMessage(outcomes[run.calls - 1].error, table),
                                       Some(outcomes[run.calls - 1].error))))
  }

  /** A reachable host and a terminal first failure: one request, the table's message. */
  lemma TerminalErrorIsReported(keyError: string, probe: ProbeOutcome, apiName: string,
                                outcomes: seq<Result<string, string>>, terminal: string -> bool,
                                table: seq<Marker>)
    requires MaxAttempts <= |outcomes|
    requires ProbeError(probe, apiName).None?
    requires outcomes[0].Failure? && terminal(outcomes[0].error)
    ensures Generate(true, keyError, probe, apiName, outcomes, terminal, table)
            == AdapterRun(Failed(MarkerMessage(outcomes[0].error, table), Some(outcomes[0].error)), true, 1, [])
  {
    TerminalFirstIsSingleCall(outcomes, terminal);
  }
}
