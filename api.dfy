/**
 * The client's view of the REST API: the records it exchanges, the outcome of
 * a call, and the HTTP adapter's two interceptors (bearer token on every
 * request, session wipe and redirect on a 401 response).
 */
module Api {
  import opened Wrappers
  import opened Storage

  // ---------------------------------------------------------------- records

  datatype TaskStatus = Pending | InProgress | Completed
  datatype Priority = Low | Medium | High

  /** The wire spelling of a task status. */
  function StatusText(s: TaskStatus): string {
    match s
    case Pending => "pending"
    case InProgress => "in_progress"
    case Completed => "completed"
  }

  /** The wire spelling of a task priority. */
  function PriorityText(p: Priority): string {
    match p
    case Low => "low"
    case Medium => "medium"
    case High => "high"
  }

  /** A status is one of exactly three strings, and the spelling identifies it. */
  lemma StatusDomain(s: string)
    ensures (exists st :: StatusText(st) == s) <==> s in {"pending", "in_progress", "completed"}
    ensures forall a, b :: StatusText(a) == StatusText(b) ==> a == b
  {
    if s == "pending" { assert StatusText(Pending) == s; }
    if s == "in_progress" { assert StatusText(InProgress) == s; }
    if s == "completed" { assert StatusText(Completed) == s; }
  }

  /** A priority is one of exactly three strings, and the spelling identifies it. */
  lemma PriorityDomain(s: string)
    ensures (exists p :: PriorityText(p) == s) <==> s in {"low", "medium", "high"}
    ensures forall a, b :: PriorityText(a) == PriorityText(b) ==> a == b
  {
    if s == "low" { assert PriorityText(Low) == s; }
    if s == "medium" { assert PriorityText(Medium) == s; }
    if s == "high" { assert PriorityText(High) == s; }
  }

  datatype User = User(
    id: int,
    name: string,
    email: string,
    role: Option<string>,
    created_at: string,
    updated_at: string)

  datatype Project = Project(
    id: int,
    name: string,
    description: Option<string>,
    status: string,
    created_at: string,
    updated_at: string,
    tasks_count: Option<int>)

  datatype Task = Task(
    id: int,
    title: string,
    description: Option<string>,
    status: TaskStatus,
    priority: Priority,
    due_date: Option<string>,
    project_id: Option<int>,
    created_at: string,
    updated_at: string)

  // ---------------------------------------------------------------- outcomes

  /** A rejected call: `error.response?.status` and `error.response?.data?.message`. */
  datatype ApiError = ApiError(status: Option<int>, message: Option<string>)

  /** What an awaited API call yields: the response body, or the rejection. */
  datatype Outcome<+T> = Success(value: T) | Failure(error: ApiError)

  /**
   * `error.response?.data?.message || fallback`: the server's message when it
   * sent a non-empty one, the operation's own wording otherwise.
   */
  function ErrorMessage(error: ApiError, fallback: string): (m: string)
    ensures error.message.Some? && error.message.value != "" ==> m == error.message.value
    ensures error.message.None? || error.message.value == "" ==> m == fallback
  {
    if error.message.Some? && error.message.value != "" then error.message.value else fallback
  }

  // ---------------------------------------------------------------- interceptors

  const AUTHORIZATION := "Authorization"

  /** The headers after the request interceptor, given the stored items. */
  function WithBearer(headers: map<string, string>, items: map<string, string>): (r: map<string, string>)
    ensures HasValue(items, AUTH_TOKEN) ==> AUTHORIZATION in r && r[AUTHORIZATION] == "Bearer " + items[AUTH_TOKEN]
    ensures !HasValue(items, AUTH_TOKEN) ==> r == headers
    ensures forall k :: k != AUTHORIZATION ==> (k in r <==> k in headers)
    ensures forall k :: k != AUTHORIZATION && k in r ==> r[k] == headers[k]
  {
    if HasValue(items, AUTH_TOKEN) then headers[AUTHORIZATION := "Bearer " + items[AUTH_TOKEN]] else headers
  }

  /** The response interceptor's test: a rejection carrying HTTP status 401. */
  predicate IsUnauthorized<T>(response: Outcome<T>) {
    response.Failure? && response.error.status == Some(401)
  }

  /** An outgoing request; the interceptor edits its headers in place. */
  class RequestConfig {
    var headers: map<string, string>

    constructor (headers: map<string, string>)
      ensures this.headers == headers
    {
      this.headers := headers;
    }
  }

  /** The shared axios instance with its two interceptors. */
  class HttpClient {
    const storage: LocalStorage
    /** `window.location.href`. */
    ghost var location: string

    constructor (storage: LocalStorage, ghost location: string)
      ensures this.storage == storage && this.location == location
    {
      this.storage := storage;
      this.location := location;
    }

    /** Attaches `Authorization: Bearer <token>` when a non-empty token is stored. */
    method InterceptRequest(config: RequestConfig) returns (sent: RequestConfig)
      modifies config
      ensures sent == config
      ensures config.headers == WithBearer(old(config.headers), storage.items)
    {
      var token := storage.GetItem(AUTH_TOKEN);
      if HasValue(storage.items, AUTH_TOKEN) {
        config.headers := config.headers[AUTHORIZATION := "Bearer " + token.value];
      }
      sent := config;
    }

    /**
     * Passes every response on unchanged; a 401 rejection first wipes the
     * stored session and sends the browser to the login page.
     */
    method InterceptResponse<T>(response: Outcome<T>) returns (r: Outcome<T>)
      modifies storage, this`location
      ensures r == response
      ensures storage.items == if IsUnauthorized(response) then WithoutSession(old(storage.items)) else old(storage.items)
      ensures location == if IsUnauthorized(response) then "/login" else old(location)
    {
      if IsUnauthorized(response) {
        storage.RemoveItem(AUTH_TOKEN);
        storage.RemoveItem(USER_DATA);
        location := "/login";
      }
      r := response;
    }
  }
}
