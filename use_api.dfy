/** The resource-state hook `useApi(baseUrl)`: three pieces of state (`data`,
  * `loading`, `error`) driven by fetch cycles. A cycle begins synchronously
  * (loading on, error cleared), waits for the network, and completes with the
  * outcome of the request. The network is a parameter: what a request for a
  * URL brings back is the `Outcome` the caller supplies. */
module UseApi {
  import opened Seqs
  import opened Text

  const HttpErrorPrefix := "HTTP error! status: "
  const FallbackMessage := "Terjadi kesalahan saat memuat data"

  /** What `response.json()` makes of the body: a decoded value, or a parse
    * failure (a `SyntaxError`, which is an `Error` with a message). */
  datatype Body<T> = Json(value: T) | Malformed(message: string)

  /** A value thrown by `fetch`: an `Error` instance with its message, or any other value. */
  datatype Thrown = ErrorInstance(message: string) | NonErrorValue

  /** How one request ends: a response with its HTTP status and body, or a rejection. */
  datatype Outcome<T> = Received(status: nat, body: Body<T>) | Rejected(thrown: Thrown)

  /** `response.ok`: the status lies in the 2xx range. */
  predicate ResponseOk(status: nat)
  {
    200 <= status <= 299
  }

  /** Line 13: a URL already absolute (`http…`) or API-rooted (`/api…`) is kept,
    * anything else is prefixed with `/api`. */
  function NormalizeUrl(baseUrl: string): (apiUrl: string)
    ensures StartsWith(apiUrl, "http") || StartsWith(apiUrl, "/api")
    ensures StartsWith(baseUrl, "http") || StartsWith(baseUrl, "/api") ==> apiUrl == baseUrl
    ensures apiUrl == baseUrl || apiUrl == "/api" + baseUrl
    ensures |apiUrl| >= |baseUrl| && apiUrl[|apiUrl| - |baseUrl|..] == baseUrl
  {
    if StartsWith(baseUrl, "http") || StartsWith(baseUrl, "/api") then baseUrl
    else
      var r := "/api" + baseUrl;
      assert r[..4] == "/api";
      assert r[4..] == baseUrl;
      r
  }

  lemma NormalizeUrlIdempotent(baseUrl: string)
    ensures NormalizeUrl(NormalizeUrl(baseUrl)) == NormalizeUrl(baseUrl)
  {
  }

  /** The message `new Error(`HTTP error! status: ${status}`)` carries. */
  function HttpErrorMessage(status: nat): (m: string)
    ensures StartsWith(m, HttpErrorPrefix) && |m| > |HttpErrorPrefix|
  {
    HttpErrorPrefix + NatToString(status)
  }

  /** The HTTP message names the status: what follows the prefix reads back as it,
    * so two different statuses never produce the same message. */
  lemma HttpErrorMessageNamesStatus(status: nat)
    ensures StartsWith(HttpErrorMessage(status), HttpErrorPrefix)
    ensures ParseNat(HttpErrorMessage(status)[|HttpErrorPrefix|..]) == Some(status)
    ensures HttpErrorMessage(status) != ""
  {
    var m := HttpErrorMessage(status);
    assert m[..|HttpErrorPrefix|] == HttpErrorPrefix;
    assert m[|HttpErrorPrefix|..] == NatToString(status);
    ParseNatToString(status);
  }

  /** Line 23: an `Error` contributes its message, anything else the fixed fallback. */
  function ThrownMessage(t: Thrown): (m: string)
    ensures t.NonErrorValue? ==> m == FallbackMessage
    ensures t.ErrorInstance? ==> m == t.message
  {
    match t
    case ErrorInstance(msg) => msg
    case NonErrorValue => FallbackMessage
  }

  /** The message the `catch` block stores for an outcome, or None when the try block ran through. */
  function FailureOf<T>(o: Outcome<T>): (failure: Option<string>)
    ensures failure.None? <==> o.Received? && ResponseOk(o.status) && o.body.Json?
    ensures o.Received? && !ResponseOk(o.status) ==> failure == Some(HttpErrorMessage(o.status))
    ensures o.Received? && ResponseOk(o.status) && o.body.Malformed? ==> failure == Some(o.body.message)
    ensures o.Rejected? ==> failure == Some(ThrownMessage(o.thrown))
  {
    match o
    case Received(status, body) =>
      if !ResponseOk(status) then Some(HttpErrorMessage(status))
      else (match body
        case Json(_) => None
        case Malformed(msg) => Some(msg))
    case Rejected(t) => Some(ThrownMessage(t))
  }

  /** The state the hook exposes besides `refetch`. */
  datatype HookState<T> = HookState(data: Option<T>, loading: bool, error: Option<string>)

  /** Lines 4-6: nothing loaded yet, loading, no error. */
  function Initial<T>(): (s: HookState<T>)
    ensures s.data.None? && s.loading && s.error.None?
  {
    HookState(None, true, None)
  }

  /** Lines 10-11: the synchronous start of a cycle. */
  function Begin<T>(s: HookState<T>): (r: HookState<T>)
    ensures r.loading && r.error.None?
    ensures r.data == s.data
  {
    s.(loading := true, error := None)
  }

  /** Lines 14-27: the rest of the cycle once the request has an outcome. */
  function Complete<T>(s: HookState<T>, o: Outcome<T>): (r: HookState<T>)
    ensures !r.loading
    ensures o.Received? && !ResponseOk(o.status) ==>
              r.error == Some(HttpErrorPrefix + NatToString(o.status)) && r.data == s.data
    ensures o.Received? && ResponseOk(o.status) && o.body.Json? ==>
              r.data == Some(o.body.value) && r.error == s.error
    ensures o.Received? && ResponseOk(o.status) && o.body.Malformed? ==>
              r.error == Some(o.body.message) && r.data == s.data
    ensures o.Rejected? ==> r.error == Some(ThrownMessage(o.thrown)) && r.data == s.data
  {
    match FailureOf(o)
    case Some(msg) => s.(loading := false, error := Some(msg))
    case None => s.(loading := false, data := Some(o.body.value))
  }

  /** One whole cycle, as `executeFetch` runs when nothing overlaps it. It ends
    * settled: not loading; an error exactly when the outcome failed; the data
    * replaced wholesale on success and left as it was on failure. */
  function Cycle<T>(s: HookState<T>, o: Outcome<T>): (r: HookState<T>)
    ensures !r.loading
    ensures r.error == FailureOf(o)
    ensures FailureOf(o).None? ==> o.Received? && o.body.Json? && r.data == Some(o.body.value)
    ensures FailureOf(o).Some? ==> r.data == s.data
  {
    Complete(Begin(s), o)
  }

  /** Re-running a cycle with the same outcome (an unchanged remote resource) changes nothing. */
  lemma CycleIdempotent<T>(s: HookState<T>, o: Outcome<T>)
    ensures Cycle(Cycle(s, o), o) == Cycle(s, o)
  {
  }

  /** Every way an HTTP failure or a non-`Error` throw is reported is a non-empty
    * message, so the panels (which test the error for truthiness) see it. */
  lemma ReportedFailuresAreNonEmpty<T>(o: Outcome<T>)
    requires o.Rejected? ==> o.thrown.NonErrorValue?
    requires o.Received? ==> !ResponseOk(o.status)
    ensures FailureOf(o).Some? && FailureOf(o).value != ""
  {
    if o.Received? {
      HttpErrorMessageNamesStatus(o.status);
    }
  }

  /** The steps of the state machine: the start of a cycle and the arrival of an outcome. */
  datatype Event<T> = Start | Finish(outcome: Outcome<T>)

  function Step<T>(s: HookState<T>, e: Event<T>): HookState<T>
  {
    match e
    case Start => Begin(s)
    case Finish(o) => Complete(s, o)
  }

  function Run<T>(s: HookState<T>, es: seq<Event<T>>): HookState<T>
    decreases |es|
  {
    if |es| == 0 then s else Run(Step(s, es[0]), es[1..])
  }

  /** `loading` and `error` are never both set. */
  predicate Exclusive<T>(s: HookState<T>)
  {
    !(s.loading && s.error.Some?)
  }

  lemma InitialExclusive<T>()
    ensures Exclusive(Initial<T>())
  {
  }

  /** Every start clears the error and every completion clears `loading`, so
    * whatever sequence of starts and completions the hook goes through (from an
    * exclusive state), `loading` and `error` are never both set. */
  lemma {:induction false} RunKeepsExclusive<T>(s: HookState<T>, es: seq<Event<T>>)
    requires Exclusive(s)
    ensures Exclusive(Run(s, es))
    decreases |es|
  {
    if |es| > 0 {
      RunKeepsExclusive(Step(s, es[0]), es[1..]);
    }
  }

  /**
   * Once some payload has arrived, no later event clears it (a failure leaves the old data).
   * This rests on `Body`: a decoded body is always a value, so the JSON `null` that would
   * make the hook store `null` again is not an input of the model.
   */
  lemma {:induction false} RunNeverClearsData<T>(s: HookState<T>, es: seq<Event<T>>)
    requires s.data.Some?
    ensures Run(s, es).data.Some?
    decreases |es|
  {
    if |es| > 0 {
      RunNeverClearsData(Step(s, es[0]), es[1..]);
    }
  }

  /** The hook instance held by a component, retargeted when `baseUrl` changes. */
  class ApiResource<T> {
    var baseUrl: string
    var data: Option<T>
    var loading: bool
    var error: Option<string>

    function State(): HookState<T>
      reads this
    {
      HookState(data, loading, error)
    }

    constructor (url: string)
      ensures baseUrl == url && State() == Initial()
    {
      baseUrl := url;
      data := None;
      loading := true;
      error := None;
    }

    /** Lines 10-14: begin a cycle; the result is the URL handed to `fetch`. */
    method StartCycle() returns (requestUrl: string)
      modifies this
      ensures requestUrl == NormalizeUrl(baseUrl)
      ensures baseUrl == old(baseUrl) && State() == Begin(old(State()))
    {
      loading := true;
      error := None;
      requestUrl := NormalizeUrl(baseUrl);
    }

    /** Lines 16-27: the request has come back with `outcome`. */
    method Settle(outcome: Outcome<T>)
      modifies this
      ensures baseUrl == old(baseUrl) && State() == Complete(old(State()), outcome)
    {
      if !outcome.Received? || !ResponseOk(outcome.status) || outcome.body.Malformed? {
        var msg := FailureOf(outcome).value;
        error := Some(msg);
      } else {
        data := Some(outcome.body.value);
      }
      loading := false;
    }

    /** Lines 8-28 without overlap: `network` says what a request for each URL brings back. */
    method ExecuteFetch(network: string -> Outcome<T>) returns (requestUrl: string)
      modifies this
      ensures requestUrl == NormalizeUrl(baseUrl) && baseUrl == old(baseUrl)
      ensures State() == Cycle(old(State()), network(requestUrl))
      ensures Exclusive(State())
    {
      requestUrl := StartCycle();
      Settle(network(requestUrl));
    }

    /** Lines 34-36: the identical cycle against the current URL. */
    method Refetch(network: string -> Outcome<T>) returns (requestUrl: string)
      modifies this
      ensures requestUrl == NormalizeUrl(baseUrl) && baseUrl == old(baseUrl)
      ensures State() == Cycle(old(State()), network(requestUrl))
    {
      requestUrl := ExecuteFetch(network);
    }

    /** Lines 30-32 on a later render: the effect depends on `baseUrl` alone, so a render with a new
      * URL starts exactly one cycle and a render with the same URL starts none. The
      * previous payload stays until the new request succeeds. */
    method Rerender(url: string, network: string -> Outcome<T>) returns (request: Option<string>)
      modifies this
      ensures baseUrl == url
      ensures url != old(baseUrl) ==> request == Some(NormalizeUrl(url)) &&
                                      State() == Cycle(old(State()), network(NormalizeUrl(url)))
      ensures url == old(baseUrl) ==> request.None? && State() == old(State())
    {
      if url != baseUrl {
        baseUrl := url;
        var r := ExecuteFetch(network);
        request := Some(r);
      } else {
        request := None;
      }
    }
  }

  /** The first render: the hook starts in its initial state, and the effect
    * (lines 30-32) then runs exactly one cycle against the normalised URL, so the
    * first data and error come from that one request. */
  method Mount<T>(url: string, network: string -> Outcome<T>) returns (hook: ApiResource<T>, requestUrl: string)
    ensures fresh(hook) && hook.baseUrl == url
    ensures requestUrl == NormalizeUrl(url)
    ensures hook.State() == Cycle(Initial(), network(requestUrl))
  {
    hook := new ApiResource(url);
    requestUrl := hook.ExecuteFetch(network);
  }
}
