/** The PM Kisan practice form: a four-step wizard (eligibility, Aadhaar, land-record
    upload, review) with validation gates, the failure log and the final submission. */
module FormSim {
  import opened Js
  import opened Browser

  const MODULE_ID := "sim_pm_kisan"
  /** The Aadhaar input's `maxLength`. */
  const AADHAAR_LENGTH := 12
  const AADHAAR_ERROR := "Aadhaar must be 12 digits."
  const UPLOAD_ERROR := "Please upload the 7/12 extract photo first."
  const UPLOAD_FAILURE_ACTION := "failed_upload_attempt"
  const SUBMITTED_ALERT := "\U{1F389} Practice Application Submitted! You earned 50 Points."
  const OFFLINE_ALERT := "Submitted offline!"

  /** What "Next" decides on a step: move on, or stay with an error message (on the upload
      step the attempt is also logged). */
  datatype Gate = Advance | Reject(message: string, logAttempt: bool)

  function NextGate(step: int, aadhaar: string, hasUploaded: bool): (g: Gate)
    ensures g == Advance <==> (step != 2 || AADHAAR_LENGTH <= |aadhaar|) && (step != 3 || hasUploaded)
    ensures g.Reject? ==> (g.logAttempt <==> step == 3)
  {
    if step == 2 && |aadhaar| < AADHAAR_LENGTH then Reject(AADHAAR_ERROR, false)
    else if step == 3 && !hasUploaded then Reject(UPLOAD_ERROR, true)
    else Advance
  }

  /** Step 1 always advances; step 2 holds back a short Aadhaar and step 3 a missing upload,
      each with its own message, and only the upload step logs. Since the input holds at most
      twelve characters, getting past step 2 means the Aadhaar has exactly twelve. */
  lemma GateRules(step: int, aadhaar: string, hasUploaded: bool)
    requires |aadhaar| <= AADHAAR_LENGTH
    ensures step == 1 ==> NextGate(step, aadhaar, hasUploaded) == Advance
    ensures step == 2 ==> (NextGate(step, aadhaar, hasUploaded) == Advance <==> |aadhaar| == AADHAAR_LENGTH)
    ensures step == 2 && NextGate(step, aadhaar, hasUploaded).Reject? ==>
              NextGate(step, aadhaar, hasUploaded) == Reject(AADHAAR_ERROR, false)
    ensures step == 3 ==> (NextGate(step, aadhaar, hasUploaded) == Advance <==> hasUploaded)
    ensures step == 3 && !hasUploaded ==> NextGate(step, aadhaar, hasUploaded) == Reject(UPLOAD_ERROR, true)
  {
  }

  /** The request `logFailure(action)` sends, if any: none without a stored user, without a
      token, or with the guest token. */
  function FailureLog(user: Option<User>, token: Option<string>, action: string): (r: seq<Request>)
    ensures |r| <= 1
    ensures r != [] <==> user.Some? && IsMember(token)
    ensures r != [] ==> r[0].url == API_BASE_URL + "/api/log" && r[0].authorization == Bearer(token)
  {
    if user.None? || !Truthy(token) || token.value == GUEST_TOKEN then []
    else [Request(API_BASE_URL + "/api/log", "POST", Bearer(token),
                  JObj([("user_id", JNum(user.value.id)), ("module_id", JStr(MODULE_ID)), ("action", JStr(action))]))]
  }

  function PointsRequest(token: Option<string>, userId: int): Request
  {
    Request(API_BASE_URL + "/api/progress", "POST", Bearer(token),
            JObj([("user_id", JNum(userId)), ("module_id", JStr(MODULE_ID)), ("points", JNum(50))]))
  }

  /** `logFailure(action)` */
  method LogFailure(d: Device, action: string)
    modifies d`requests
    ensures d.requests == old(d.requests) + FailureLog(d.user, d.token, action)
  {
    var storedUser := d.user;
    var token := d.token;
    if storedUser.None? || !Truthy(token) || token.value == GUEST_TOKEN {
      return;
    }
    d.requests := d.requests + FailureLog(storedUser, token, action);
  }

  class FormWizard {
    const device: Device
    var step: int
    var aadhaar: string
    var hasUploaded: bool
    var error: string

    /** The wizard is on one of its four steps; once past the Aadhaar step the number has
        twelve characters, and the review step is reached only after an upload. */
    ghost predicate Valid()
      reads this
    {
      && 1 <= step <= 4
      && |aadhaar| <= AADHAAR_LENGTH
      && (step >= 3 ==> |aadhaar| == AADHAAR_LENGTH)
      && (step == 4 ==> hasUploaded)
    }

    constructor (device: Device)
      ensures Valid() && this.device == device
      ensures step == 1 && aadhaar == "" && !hasUploaded && error == ""
    {
      this.device := device;
      step := 1;
      aadhaar := "";
      hasUploaded := false;
      error := "";
    }

    /** Typing into the Aadhaar input (shown on step 2 only), which keeps at most twelve characters. */
    method EnterAadhaar(value: string)
      requires Valid() && step == 2
      modifies this`aadhaar
      ensures Valid()
      ensures aadhaar == if |value| <= AADHAAR_LENGTH then value else value[..AADHAAR_LENGTH]
    {
      aadhaar := if |value| <= AADHAAR_LENGTH then value else value[..AADHAAR_LENGTH];
    }

    /** Tapping the upload area (shown on step 3 only). */
    method TapUpload()
      requires Valid() && step == 3
      modifies this`hasUploaded
      ensures Valid() && hasUploaded
    {
      hasUploaded := true;
    }

    /** `handleNext()`, the button of steps 1 to 3: the error is cleared first, then the gate decides. */
    method HandleNext()
      requires Valid() && step <= 3
      modifies this`step, this`error, device`requests
      ensures Valid()
      ensures NextGate(old(step), aadhaar, hasUploaded) == Advance ==>
                step == old(step) + 1 && error == "" && device.requests == old(device.requests)
      ensures NextGate(old(step), aadhaar, hasUploaded).Reject? ==>
                var g := NextGate(old(step), aadhaar, hasUploaded);
                && step == old(step) && error == g.message
                && device.requests == old(device.requests) +
                     (if g.logAttempt then FailureLog(device.user, device.token, UPLOAD_FAILURE_ACTION) else [])
    {
      error := "";
      if step == 2 && |aadhaar| < AADHAAR_LENGTH {
        error := AADHAAR_ERROR;
        return;
      }
      if step == 3 && !hasUploaded {
        error := UPLOAD_ERROR;
        LogFailure(device, UPLOAD_FAILURE_ACTION);
        return;
      }
      step := step + 1;
    }

    /** `submitForm()` on the review step; `outcome` is what the points request comes back with.
        Only a thrown error (or a missing user, whose `id` cannot be read) takes the error path;
        a response of any status counts as submitted. */
    method SubmitForm(outcome: Outcome)
      requires Valid() && step == 4
      modifies device`requests, device`alerts, device`navigations
      ensures device.navigations == old(device.navigations) + ["/services"]
      ensures device.requests == old(device.requests) +
                (if IsMember(device.token) && device.user.Some? then [PointsRequest(device.token, device.user.value.id)] else [])
      ensures device.alerts == old(device.alerts) +
                [if IsMember(device.token) && (device.user.None? || outcome.NetworkError?) then OFFLINE_ALERT else SUBMITTED_ALERT]
    {
      var storedUser := device.user;
      var token := device.token;
      var threw := false;
      if Truthy(token) && token.value != GUEST_TOKEN {
        if storedUser.None? {
          threw := true;
        } else {
          device.requests := device.requests + [PointsRequest(token, storedUser.value.id)];
          threw := outcome.NetworkError?;
        }
      }
      if !threw {
        device.navigations := device.navigations + ["/services"];
        device.alerts := device.alerts + [SUBMITTED_ALERT];
      } else {
        device.alerts := device.alerts + [OFFLINE_ALERT];
        device.navigations := device.navigations + ["/services"];
      }
    }
  }
}
