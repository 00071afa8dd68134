/** The browser-side state the pages share: the localStorage entries they read and
    write, the connectivity flag `navigator.onLine`, and a record of the effects they
    cause (requests sent with `fetch`, sync events, alerts and navigations). */
module Browser {
  import opened Js

  const API_BASE_URL := "http://localhost:8080"
  const GUEST_TOKEN := "guest-token"

  /** The parsed `user` entry of localStorage (the fields the pages read). */
  datatype User = User(id: int, role: Option<string>)

  /** One `fetch` call: the full URL, the HTTP method, the Authorization header and the JSON body. */
  datatype Request = Request(url: string, httpMethod: string, authorization: string, body: Json)

  /** What a `fetch` call comes back with: a response with its status, or a thrown error. */
  datatype Outcome = Response(status: int) | NetworkError

  /** `res.ok`: a response whose status is in the 2xx range. */
  predicate IsOk(o: Outcome)
  {
    o.Response? && 200 <= o.status <= 299
  }

  /** The header `Bearer ${token}`; a missing token is rendered as the text "null". */
  function Bearer(token: Option<string>): string
  {
    "Bearer " + (if token.Some? then token.value else "null")
  }

  /** `token && token !== "guest-token"`: a signed-in, non-guest session. */
  predicate IsMember(token: Option<string>)
  {
    Truthy(token) && token.value != GUEST_TOKEN
  }

  /** A deferred request, as stored in the offline queue. */
  datatype Action = Action(id: string, url: string, httpMethod: string, body: Json, timestamp: string)

  /** The queue entry of localStorage: absent, a JSON array of actions, or text that does
      not parse as a JSON array (corrupt JSON, `null`, an object, a number). */
  datatype QueueSlot = Missing | Stored(entries: seq<Action>) | Unreadable

  class Device {
    /** localStorage["gramsathi_sync_queue"] */
    var queueSlot: QueueSlot
    /** localStorage["token"] */
    var token: Option<string>
    /** JSON.parse(localStorage["user"]); `None` when the entry is absent */
    var user: Option<User>
    /** localStorage["onboarding_completed"] */
    var onboardingCompleted: Option<string>
    /** navigator.onLine */
    var online: bool
    /** every `fetch` issued, in the order issued */
    var requests: seq<Request>
    /** the `count` of every "gramsathi-sync-complete" event dispatched */
    var syncEvents: seq<nat>
    /** every `alert` shown */
    var alerts: seq<string>
    /** every `navigate` target */
    var navigations: seq<string>

    constructor (queueSlot: QueueSlot, token: Option<string>, user: Option<User>, online: bool)
      ensures this.queueSlot == queueSlot && this.token == token && this.user == user
      ensures this.online == online && onboardingCompleted == None
      ensures requests == [] && syncEvents == [] && alerts == [] && navigations == []
    {
      this.queueSlot := queueSlot;
      this.token := token;
      this.user := user;
      this.online := online;
      onboardingCompleted := None;
      requests := [];
      syncEvents := [];
      alerts := [];
      navigations := [];
    }
  }
}
