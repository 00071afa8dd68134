/** The UPI payment practice: scan a QR code, enter an amount, type a four-digit PIN on
    the on-screen keypad, see the success screen and claim the points. */
module Simulation {
  import opened Js
  import opened Browser

  const PIN_LENGTH := 4
  const MODULE_ID := "upi"
  const SUCCESS_ALERT := "\U{1F389} Success! 50 Points Added to your Profile."
  const SAVE_ERROR_ALERT := "Error saving progress"
  const CONNECT_ERROR_ALERT := "Could not connect to server"

  /** A keypad press: the PIN after it, and whether it schedules the move to the success
      screen. The digit is kept only while the PIN stays within four characters, and the
      move is scheduled by the press that makes the PIN exactly four long. */
  function PressDigit(pin: string, d: nat): (r: (string, bool))
    requires d < 10
    ensures |pin| <= PIN_LENGTH ==> |r.0| <= PIN_LENGTH
    ensures |pin| < PIN_LENGTH ==> r.0 == pin + [DigitChar(d)]
    ensures |pin| >= PIN_LENGTH ==> r.0 == pin
    ensures r.1 <==> |pin| + 1 == PIN_LENGTH
    ensures r.1 ==> |r.0| == PIN_LENGTH
  {
    var newPin := pin + [DigitChar(d)];
    (if |newPin| <= PIN_LENGTH then newPin else pin, |newPin| == PIN_LENGTH)
  }

  /** The backspace key: `pin.slice(0, -1)`, which leaves an empty PIN empty. */
  function DropLast(pin: string): (r: string)
    ensures pin == [] ==> r == []
    ensures pin != [] ==> |r| == |pin| - 1 && r + [pin[|pin| - 1]] == pin
  {
    if pin == [] then [] else pin[..|pin| - 1]
  }

  /** Backspace undoes a digit that was kept. */
  lemma BackspaceUndoesDigit(pin: string, d: nat)
    requires d < 10 && |pin| < PIN_LENGTH
    ensures DropLast(PressDigit(pin, d).0) == pin
  {
    assert (pin + [DigitChar(d)])[..|pin|] == pin;
  }

  function Digits(ds: seq<nat>): (r: string)
    requires forall i :: 0 <= i < |ds| ==> ds[i] < 10
    ensures |r| == |ds| && AllDigits(r)
  {
    seq(|ds|, i requires 0 <= i < |ds| => DigitChar(ds[i]))
  }

  /** The PIN after pressing the digits `ds` in order, starting from `pin`. */
  function PressAll(pin: string, ds: seq<nat>): string
    requires forall i :: 0 <= i < |ds| ==> ds[i] < 10
    decreases |ds|
  {
    if ds == [] then pin else PressAll(PressDigit(pin, ds[0]).0, ds[1..])
  }

  function Take(s: string, n: nat): string
  {
    if |s| <= n then s else s[..n]
  }

  /** Typing a run of digits keeps exactly the first ones that fit: the PIN is the first four
      characters of what was typed, and presses beyond the fourth are ignored. */
  lemma {:induction false} PressAllKeepsFirstFour(pin: string, ds: seq<nat>)
    requires forall i :: 0 <= i < |ds| ==> ds[i] < 10
    requires |pin| <= PIN_LENGTH
    ensures PressAll(pin, ds) == Take(pin + Digits(ds), PIN_LENGTH)
    decreases |ds|
  {
    if ds != [] {
      var next := PressDigit(pin, ds[0]).0;
      var typed := pin + Digits(ds);
      PressAllKeepsFirstFour(next, ds[1..]);
      assert Digits(ds) == [DigitChar(ds[0])] + Digits(ds[1..]);
      if |pin| < PIN_LENGTH {
        assert next + Digits(ds[1..]) == typed;
      } else {
        FullPinIgnoresMore(pin, Digits(ds[1..]));
        FullPinIgnoresMore(pin, Digits(ds));
      }
    }
  }

  /** A full PIN is unchanged by taking the first four of it followed by anything. */
  lemma FullPinIgnoresMore(pin: string, more: string)
    requires |pin| == PIN_LENGTH
    ensures Take(pin + more, PIN_LENGTH) == pin
  {
    assert (pin + more)[..PIN_LENGTH] == pin;
  }

  function ProgressRequest(token: Option<string>, userId: int): Request
  {
    Request(API_BASE_URL + "/api/progress", "POST", Bearer(token),
            JObj([("user_id", JNum(userId)), ("module_id", JStr(MODULE_ID)), ("points", JNum(50))]))
  }

  /** The alert `handleComplete` ends with: success only on a 2xx response; a missing user
      throws while the body is built and lands in the same place as a network error. */
  function CompleteAlert(user: Option<User>, outcome: Outcome): (a: string)
    ensures a == SUCCESS_ALERT <==> user.Some? && IsOk(outcome)
    ensures a == SAVE_ERROR_ALERT <==> user.Some? && outcome.Response? && !IsOk(outcome)
    ensures a == CONNECT_ERROR_ALERT <==> user.None? || outcome.NetworkError?
  {
    if user.None? || outcome.NetworkError? then CONNECT_ERROR_ALERT
    else if IsOk(outcome) then SUCCESS_ALERT
    else SAVE_ERROR_ALERT
  }

  class UpiSimulation {
    const device: Device
    /** 1 scan prompt, 2 camera, 3 amount, 4 PIN pad, 5 success */
    var step: int
    var amount: string
    var pin: string
    /** timers scheduled by the keypad that have not fired yet */
    var pendingTimers: nat

    ghost predicate Valid()
      reads this
    {
      && 1 <= step <= 5
      && |pin| <= PIN_LENGTH && AllDigits(pin)
      && (pin != [] ==> step >= 4)
      && (pendingTimers > 0 ==> step >= 4)
    }

    /** What the payment flow is meant to guarantee: the success screen is shown only after
        a full four-digit PIN. */
    ghost predicate PaidWithFullPin()
      reads this
    {
      step == 5 ==> |pin| == PIN_LENGTH
    }

    constructor (device: Device)
      ensures Valid() && PaidWithFullPin() && this.device == device
      ensures step == 1 && amount == "" && pin == "" && pendingTimers == 0
    {
      this.device := device;
      step := 1;
      amount := "";
      pin := "";
      pendingTimers := 0;
    }

    /** "Tap to Scan" */
    method TapToScan()
      requires Valid() && step == 1
      modifies this`step
      ensures Valid() && PaidWithFullPin() && step == 2
    {
      step := 2;
    }

    /** Tapping the QR code in the camera view. */
    method TapQr()
      requires Valid() && step == 2
      modifies this`step
      ensures Valid() && PaidWithFullPin() && step == 3
    {
      step := 3;
    }

    /** "Cancel" in the camera view. */
    method Cancel()
      requires Valid() && step == 2
      modifies this`step
      ensures Valid() && PaidWithFullPin() && step == 1
    {
      step := 1;
    }

    /** Typing into the amount field. */
    method EnterAmount(value: string)
      requires Valid() && step == 3
      modifies this`amount
      ensures Valid() && PaidWithFullPin() && amount == value
    {
      amount := value;
    }

    /** "Proceed to Pay", disabled while the amount is empty. */
    method ProceedToPay()
      requires Valid() && step == 3
      modifies this`step
      ensures Valid() && PaidWithFullPin()
      ensures step == (if amount != "" then 4 else 3)
    {
      if amount != "" {
        step := 4;
      }
    }

    /** A digit key of the PIN pad. */
    method PressKey(d: nat)
      requires Valid() && step == 4 && d < 10
      modifies this`pin, this`pendingTimers
      ensures Valid() && PaidWithFullPin()
      ensures pin == PressDigit(old(pin), d).0
      ensures pendingTimers == old(pendingTimers) + (if PressDigit(old(pin), d).1 then 1 else 0)
    {
      var newPin := pin + [DigitChar(d)];
      if |newPin| <= PIN_LENGTH {
        pin := newPin;
      }
      if |newPin| == PIN_LENGTH {
        pendingTimers := pendingTimers + 1;
      }
    }

    /** The backspace key of the PIN pad. */
    method Backspace()
      requires Valid() && step == 4
      modifies this`pin
      ensures Valid() && PaidWithFullPin()
      ensures pin == DropLast(old(pin))
    {
      pin := DropLast(pin);
    }

    /** A scheduled timer firing, as written: it shows the success screen whatever the PIN
        is by then. */
    method FireTimer()
      requires Valid() && pendingTimers > 0
      modifies this`step, this`pendingTimers
      ensures Valid() && step == 5 && pendingTimers == old(pendingTimers) - 1
    {
      step := 5;
      pendingTimers := pendingTimers - 1;
    }

    /** A scheduled timer firing, corrected: it shows the success screen only if the PIN is
        still four digits long, so the success screen always follows a full PIN. */
    method FireTimerGuarded()
      requires Valid() && PaidWithFullPin() && pendingTimers > 0
      modifies this`step, this`pendingTimers
      ensures Valid() && PaidWithFullPin()
      ensures step == (if |pin| == PIN_LENGTH then 5 else old(step))
      ensures pendingTimers == old(pendingTimers) - 1
    {
      if |pin| == PIN_LENGTH {
        step := 5;
      }
      pendingTimers := pendingTimers - 1;
    }

    /** `handleComplete()`, the "Done" button of the success screen. The request is sent for
        any stored token, guest or not, but only when the user's id can be read. */
    method HandleComplete(outcome: Outcome)
      requires Valid() && step == 5
      modifies device`requests, device`alerts, device`navigations
      ensures device.requests == old(device.requests) +
                (if device.user.Some? then [ProgressRequest(device.token, device.user.value.id)] else [])
      ensures device.alerts == old(device.alerts) + [CompleteAlert(device.user, outcome)]
      ensures device.navigations == old(device.navigations) +
                (if CompleteAlert(device.user, outcome) == SUCCESS_ALERT then ["/"] else [])
    {
      var storedUser := device.user;
      var token := device.token;
      if storedUser.None? {
        device.alerts := device.alerts + [CONNECT_ERROR_ALERT];
        return;
      }
      device.requests := device.requests + [ProgressRequest(token, storedUser.value.id)];
      if outcome.NetworkError? {
        device.alerts := device.alerts + [CONNECT_ERROR_ALERT];
      } else if IsOk(outcome) {
        device.alerts := device.alerts + [SUCCESS_ALERT];
        device.navigations := device.navigations + ["/"];
      } else {
        device.alerts := device.alerts + [SAVE_ERROR_ALERT];
      }
    }
  }

  /** As written, the keypad reaches the success screen with a three-digit PIN: type four
      digits, press backspace before the 300 ms timer fires, and let it fire. */
  method ShortPinReachesSuccess() returns (step: int, pinLength: int)
    ensures step == 5 && pinLength == PIN_LENGTH - 1
  {
    var d := new Device(Missing, None, None, true);
    var sim := new UpiSimulation(d);
    sim.TapToScan();
    sim.TapQr();
    sim.EnterAmount("100");
    sim.ProceedToPay();
    sim.PressKey(1);
    sim.PressKey(2);
    sim.PressKey(3);
    sim.PressKey(4);
    sim.Backspace();
    sim.FireTimer();
    step, pinLength := sim.step, |sim.pin|;
  }

  /** With the guarded timer the same presses leave the PIN pad on screen. */
  method ShortPinStaysOnKeypad() returns (step: int, pinLength: int)
    ensures step == 4 && pinLength == PIN_LENGTH - 1
  {
    var d := new Device(Missing, None, None, true);
    var sim := new UpiSimulation(d);
    sim.TapToScan();
    sim.TapQr();
    sim.EnterAmount("100");
    sim.ProceedToPay();
    sim.PressKey(1);
    sim.PressKey(2);
    sim.PressKey(3);
    sim.PressKey(4);
    sim.Backspace();
    sim.FireTimerGuarded();
    step, pinLength := sim.step, |sim.pin|;
  }
}
