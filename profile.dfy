/** The profile page's certificates: the user's badges that have a certificate design, and
    the carousel that pages through them. */
module Profile {
  import opened Js

  /** A certificate design (its text; the colours are presentation). */
  datatype Design = Design(title: string, subtitle: string)

  /** A certificate on the profile: the badge id it was earned by, and its design. */
  datatype Certificate = Certificate(id: string, design: Design)

  /** The badge ids that have a certificate design, and the design of each. */
  const CERT_TYPES: map<string, Design> := map[
    "upi_payment" := Design("Digital Financial Literacy", "Unified Payments Interface (UPI)"),
    "sim_pm_kisan" := Design("E-Governance Services", "PM Kisan Samman Nidhi"),
    "quiz_literacy_101" := Design("Cyber Safety Awareness", "Internet Safety Basics"),
    "sim_digilocker" := Design("Digital Documentation", "DigiLocker Management"),
    "grievance_filed" := Design("Active Citizenship", "Public Grievance Redressal")
  ]

  function Certified(badges: seq<string>): (r: seq<Certificate>)
    ensures |r| <= |badges|
    ensures forall i :: 0 <= i < |r| ==> r[i].id in CERT_TYPES && r[i].design == CERT_TYPES[r[i].id]
  {
    if badges == [] then []
    else if badges[0] in CERT_TYPES then [Certificate(badges[0], CERT_TYPES[badges[0]])] + Certified(badges[1..])
    else Certified(badges[1..])
  }

  /** `userCertificates`: the user's badges that have a design, in badge order, each with its
      design; a missing badge list gives none. */
  function UserCertificates(badges: Option<seq<string>>): (r: seq<Certificate>)
    ensures badges.None? ==> r == []
    ensures badges.Some? ==> |r| <= |badges.value|
    ensures forall i :: 0 <= i < |r| ==> r[i].id in CERT_TYPES && r[i].design == CERT_TYPES[r[i].id]
  {
    if badges.None? then [] else Certified(badges.value)
  }

  /** The badge ids of a list of certificates, in order. */
  function Ids(certs: seq<Certificate>): (r: seq<string>)
    ensures |r| == |certs| && forall i :: 0 <= i < |r| ==> r[i] == certs[i].id
  {
    seq(|certs|, i requires 0 <= i < |certs| => certs[i].id)
  }

  /** A badge earns a certificate exactly when it has a design: the certificate ids are the
      user's badges with a design, and nothing else. */
  lemma {:induction false} CertifiedExactly(badges: seq<string>, b: string)
    ensures b in Ids(Certified(badges)) <==> b in badges && b in CERT_TYPES
  {
    if badges != [] {
      CertifiedExactly(badges[1..], b);
      var rest := Certified(badges[1..]);
      assert badges == [badges[0]] + badges[1..];
      if badges[0] in CERT_TYPES {
        assert Ids(Certified(badges)) == [badges[0]] + Ids(rest);
      } else {
        assert Certified(badges) == rest;
      }
    }
  }

  /** Certificates keep the badge order: concatenated badge lists give concatenated certificates. */
  lemma {:induction false} CertifiedAppend(a: seq<string>, b: seq<string>)
    ensures Certified(a + b) == Certified(a) + Certified(b)
  {
    if a != [] {
      assert (a + b)[1..] == a[1..] + b;
      CertifiedAppend(a[1..], b);
    } else {
      assert a + b == b;
    }
  }

  /** Every badge is shown as a certificate exactly when every badge has a design. */
  lemma {:induction false} CertifiedAll(badges: seq<string>)
    ensures |Certified(badges)| == |badges| <==> forall i :: 0 <= i < |badges| ==> badges[i] in CERT_TYPES
  {
    if badges != [] {
      CertifiedAll(badges[1..]);
      assert forall i :: 1 <= i < |badges| ==> badges[i] == badges[1..][i - 1];
    }
  }

  /** `nextCert`: `(i + 1) % n`. */
  function NextIndex(i: nat, n: nat): (r: nat)
    requires i < n
    ensures r < n
    ensures i + 1 < n ==> r == i + 1
    ensures i + 1 == n ==> r == 0
  {
    (i + 1) % n
  }

  /** `prevCert`: from the first certificate to the last, otherwise one back. */
  function PrevIndex(i: nat, n: nat): (r: nat)
    requires i < n
    ensures r < n
    ensures i > 0 ==> r + 1 == i
    ensures i == 0 ==> r == n - 1
  {
    if i == 0 then n - 1 else i - 1
  }

  /** Previous undoes next and next undoes previous. */
  lemma NextPrevInverse(i: nat, n: nat)
    requires i < n
    ensures PrevIndex(NextIndex(i, n), n) == i
    ensures NextIndex(PrevIndex(i, n), n) == i
  {
  }

  function NextTimes(i: nat, n: nat, k: nat): (r: nat)
    requires i < n
    ensures r < n
    decreases k
  {
    if k == 0 then i else NextTimes(NextIndex(i, n), n, k - 1)
  }

  /** Pressing next `k` times (at most `n`) moves `k` places round the carousel, wrapping
      past the last certificate, so `n` presses come back to where they started. */
  lemma {:induction false} NextTimesRotates(i: nat, n: nat, k: nat)
    requires i < n && k <= n
    ensures NextTimes(i, n, k) == if i + k < n then i + k else i + k - n
    ensures k == n ==> NextTimes(i, n, k) == i
    decreases k
  {
    if k > 0 {
      NextTimesRotates(NextIndex(i, n), n, k - 1);
    }
  }

  /** Pressing next any number of times lands on `(i + k) % n`: the carousel is a cycle of
      length `n`, however many presses. */
  lemma {:induction false} NextTimesModulo(i: nat, n: nat, k: nat)
    requires i < n
    ensures NextTimes(i, n, k) == (i + k) % n
    decreases k
  {
    if k == 0 {
      DivisionUnique(i, n, 0, i);
    } else {
      var j := NextIndex(i, n);
      NextTimesModulo(j, n, k - 1);
      if i + 1 == n {
        assert j == 0 && i + k == (k - 1) + n;
        var q, r := (k - 1) / n, (k - 1) % n;
        assert (q + 1) * n + r == (k - 1) + n by {
          assert k - 1 == q * n + r;
          assert (q + 1) * n == q * n + n;
        }
        DivisionUnique(i + k, n, q + 1, r);
      } else {
        assert j + (k - 1) == i + k;
      }
    }
  }

  /** Euclidean division is unique: a quotient and a remainder in [0, n) that rebuild `x`
      are `x / n` and `x % n`. */
  lemma DivisionUnique(x: int, n: int, q: int, r: int)
    requires n > 0 && 0 <= r < n && x == q * n + r
    ensures x % n == r && x / n == q
  {
    var q0, r0 := x / n, x % n;
    assert x == q0 * n + r0;
    if q > q0 {
      assert (q - q0) * n >= n by { MultipleAtLeast(q - q0, n); }
      assert false;
    } else if q < q0 {
      assert (q0 - q) * n >= n by { MultipleAtLeast(q0 - q, n); }
      assert false;
    }
  }

  lemma MultipleAtLeast(a: int, n: int)
    requires a >= 1 && n > 0
    ensures a * n >= n
  {
  }

  /** The counter and the arrows are rendered only when there is more than one certificate. */
  predicate ControlsVisible(count: nat): (visible: bool)
    ensures count > 0 ==> (visible <==> NextIndex(0, count) != 0 && PrevIndex(0, count) != 0)
  {
    count > 1
  }

  class Carousel {
    /** the number of certificates shown */
    const count: nat
    var index: nat

    ghost predicate Valid()
      reads this
    {
      count == 0 || index < count
    }

    constructor (count: nat)
      ensures Valid() && this.count == count && index == 0
    {
      this.count := count;
      index := 0;
    }

    /** `nextCert()`, reachable through an arrow, so only with more than one certificate. */
    method NextCert()
      requires Valid() && ControlsVisible(count)
      modifies this`index
      ensures Valid() && index == NextIndex(old(index), count)
    {
      index := (index + 1) % count;
    }

    /** `prevCert()`, reachable through an arrow, so only with more than one certificate. */
    method PrevCert()
      requires Valid() && ControlsVisible(count)
      modifies this`index
      ensures Valid() && index == PrevIndex(old(index), count)
    {
      index := if index == 0 then count - 1 else index - 1;
    }
  }
}
