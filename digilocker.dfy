/** The DigiLocker practice: an OTP login, a list of issued documents, and fetching one
    more document, which earns points. */
module DigiLocker {
  import opened Js
  import opened Browser

  const MODULE_ID := "sim_digilocker"
  /** The one OTP the practice login accepts. */
  const DEMO_OTP := "1234"
  /** The OTP input's `maxLength`. */
  const OTP_MAX := 4
  const WRONG_OTP_ALERT := "Wrong OTP! Try 1234 (Simulation)"
  const FETCHED_ALERT := "\U{1F389} Document Fetched Successfully! (+50 Points)"

  datatype Document = Document(id: int, title: string, issuer: string, date: string)

  /** The documents the locker starts with. */
  const INITIAL_DOCUMENTS := [
    Document(1, "Aadhaar Card", "UIDAI", "12 Jan 2022"),
    Document(2, "PAN Card", "Income Tax Dept", "15 Mar 2021")
  ]

  /** The document every fetch adds. */
  const FETCHED_DOCUMENT := Document(3, "COVID Vaccine Cert", "MoHFW", "Today")

  /** The list after a fetch: one document more, at the end, the others kept in order. */
  function Fetched(docs: seq<Document>): (r: seq<Document>)
    ensures |r| == |docs| + 1
    ensures r[..|docs|] == docs && r[|docs|] == FETCHED_DOCUMENT
  {
    docs + [FETCHED_DOCUMENT]
  }

  /** The lists the page can show: the initial two documents, then fetched ones. */
  predicate Reachable(docs: seq<Document>)
  {
    && |INITIAL_DOCUMENTS| <= |docs| && docs[..|INITIAL_DOCUMENTS|] == INITIAL_DOCUMENTS
    && forall i :: |INITIAL_DOCUMENTS| <= i < |docs| ==> docs[i] == FETCHED_DOCUMENT
  }

  function FetchedTimes(docs: seq<Document>, k: nat): (r: seq<Document>)
    decreases k
  {
    if k == 0 then docs else FetchedTimes(Fetched(docs), k - 1)
  }

  /** `k` fetches add `k` copies of the fetched document after the existing ones, so the
      page only ever shows the initial documents followed by fetched ones. */
  lemma {:induction false} FetchedTimesAppends(docs: seq<Document>, k: nat)
    ensures |FetchedTimes(docs, k)| == |docs| + k
    ensures FetchedTimes(docs, k)[..|docs|] == docs
    ensures forall i :: |docs| <= i < |docs| + k ==> FetchedTimes(docs, k)[i] == FETCHED_DOCUMENT
    ensures Reachable(docs) ==> Reachable(FetchedTimes(docs, k))
    decreases k
  {
    if k > 0 {
      var next := Fetched(docs);
      FetchedTimesAppends(next, k - 1);
      var r := FetchedTimes(docs, k);
      assert r[..|next|][..|docs|] == r[..|docs|];
      assert r[|docs|] == r[..|next|][|docs|];
    }
  }

  /** The request `logSuccess()` sends: only with a signed-in, non-guest token, and only when
      the stored user can be read (a missing user throws before the request). */
  function SuccessLog(user: Option<User>, token: Option<string>): (r: seq<Request>)
    ensures |r| <= 1
    ensures r != [] <==> IsMember(token) && user.Some?
    ensures r != [] ==> r[0].url == API_BASE_URL + "/api/progress" && r[0].authorization == Bearer(token)
  {
    if Truthy(token) && token.value != GUEST_TOKEN && user.Some? then
      [Request(API_BASE_URL + "/api/progress", "POST", Bearer(token),
               JObj([("user_id", JNum(user.value.id)), ("module_id", JStr(MODULE_ID)), ("points", JNum(50))]))]
    else []
  }

  class DigiLockerSim {
    const device: Device
    /** 1 login, 2 issued documents, 3 search */
    var step: int
    var otp: string
    var documents: seq<Document>
    /** the document lists captured by fetches whose 1.5 s timer has not fired yet, oldest first */
    var pendingFetches: seq<seq<Document>>

    /** The login is left only with the demo OTP, which cannot be edited afterwards, and every
        list shown or captured is the initial documents followed by fetched ones. */
    ghost predicate Valid()
      reads this
    {
      && 1 <= step <= 3
      && |otp| <= OTP_MAX
      && (step != 1 ==> otp == DEMO_OTP)
      && Reachable(documents)
      && (forall i :: 0 <= i < |pendingFetches| ==> Reachable(pendingFetches[i]))
      && (pendingFetches != [] ==> step != 1)
    }

    constructor (device: Device)
      ensures Valid() && this.device == device
      ensures step == 1 && otp == "" && documents == INITIAL_DOCUMENTS && pendingFetches == []
    {
      this.device := device;
      step := 1;
      otp := "";
      documents := INITIAL_DOCUMENTS;
      pendingFetches := [];
    }

    /** Typing into the OTP input, which keeps at most four characters. */
    method EnterOtp(value: string)
      requires Valid() && step == 1
      modifies this`otp
      ensures Valid()
      ensures otp == if |value| <= OTP_MAX then value else value[..OTP_MAX]
    {
      otp := if |value| <= OTP_MAX then value else value[..OTP_MAX];
    }

    /** `handleLogin()`: the documents open exactly for the demo OTP; anything else alerts. */
    method HandleLogin()
      requires Valid() && step == 1
      modifies this`step, device`alerts
      ensures Valid()
      ensures step == (if otp == DEMO_OTP then 2 else 1)
      ensures device.alerts == old(device.alerts) + (if otp == DEMO_OTP then [] else [WRONG_OTP_ALERT])
    {
      if otp == DEMO_OTP {
        step := 2;
      } else {
        device.alerts := device.alerts + [WRONG_OTP_ALERT];
      }
    }

    /** "Add New" on the documents list. */
    method AddNew()
      requires Valid() && step == 2
      modifies this`step
      ensures Valid() && step == 3
    {
      step := 3;
    }

    /** "Cancel" on the search screen. */
    method CancelSearch()
      requires Valid() && step == 3
      modifies this`step
      ensures Valid() && step == 2
    {
      step := 2;
    }

    /** `handleFetchDoc()` on the search screen: it only starts the timer, which captures the
        list as it is now. */
    method HandleFetchDoc()
      requires Valid() && step == 3
      modifies this`pendingFetches
      ensures Valid() && pendingFetches == old(pendingFetches) + [documents]
    {
      pendingFetches := pendingFetches + [documents];
    }

    /** The oldest fetch timer firing: the list captured at its click gains the fetched
        document, the documents list is shown, the success is logged and announced. */
    method FireFetchTimer()
      requires Valid() && pendingFetches != []
      modifies this`documents, this`step, this`pendingFetches, device`requests, device`alerts
      ensures Valid()
      ensures documents == Fetched(old(pendingFetches[0])) && step == 2
      ensures pendingFetches == old(pendingFetches[1..])
      ensures device.requests == old(device.requests) + SuccessLog(device.user, device.token)
      ensures device.alerts == old(device.alerts) + [FETCHED_ALERT]
    {
      FetchedTimesAppends(pendingFetches[0], 1);
      documents := Fetched(pendingFetches[0]);
      pendingFetches := pendingFetches[1..];
      step := 2;
      LogSuccess();
      device.alerts := device.alerts + [FETCHED_ALERT];
    }

    /** `logSuccess()`; the outcome of the request is caught and ignored. */
    method LogSuccess()
      modifies device`requests
      ensures device.requests == old(device.requests) + SuccessLog(device.user, device.token)
    {
      var storedUser := device.user;
      var token := device.token;
      if Truthy(token) && token.value != GUEST_TOKEN {
        if storedUser.None? {
          return;
        }
        device.requests := device.requests + SuccessLog(storedUser, token);
      }
    }
  }
}
