/**
 * The mock one-time-password endpoint. A table from email to the last code
 * issued for it and its expiry time lives as long as the server process.
 * `POST` issues a code for an email; `PUT` checks a submitted code against the
 * table. The clock (`Date.now`), the random draw (`Math.random`) and the
 * outcome of the user lookup are parameters.
 */
module Otp {
  import opened Wrappers

  /** Ten minutes, in milliseconds. */
  const CodeLifetime: int := 10 * 60 * 1000

  datatype Entry = Entry(otp: string, expires: int)

  /** The JSON body after `req.json()`: each field absent or a string. */
  datatype Request = Request(email: Option<string>, otp: Option<string>)

  datatype Body =
    | Error(error: string)
    | Message(message: string)
    | Verified(message: string, isNewUser: bool)

  datatype Response = Response(status: int, body: Body)

  /** How `getUserByEmail` ended: a user row, no row, or a thrown error. */
  datatype UserLookup = UserFound | NoUser | LookupFailed

  /** A handler's reply together with the table it leaves behind. */
  datatype Outcome = Outcome(response: Response, store: map<string, Entry>)

  /** JavaScript truthiness of a string field: present and not empty. */
  predicate Truthy(field: Option<string>)
  {
    field.Some? && field.value != ""
  }

  // ---------------------------------------------------------------------------
  // The code: `Math.floor(100000 + Math.random() * 900000).toString()`

  function DigitChar(d: nat): char
    requires d < 10
  {
    ('0' as int + d) as char
  }

  predicate IsDigit(c: char)
  {
    '0' <= c <= '9'
  }

  predicate AllDigits(s: string)
  {
    forall i :: 0 <= i < |s| ==> IsDigit(s[i])
  }

  /** `toString()` on a non-negative integer: its decimal digits, most significant first. */
  function DecimalString(n: nat): string
  {
    if n < 10 then [DigitChar(n)] else DecimalString(n / 10) + [DigitChar(n % 10)]
  }

  /** The number a string of decimal digits denotes. */
  function DecimalValue(s: string): int
  {
    if s == [] then 0 else DecimalValue(s[..|s| - 1]) * 10 + (s[|s| - 1] as int - '0' as int)
  }

  function Pow10(k: nat): nat
  {
    if k == 0 then 1 else 10 * Pow10(k - 1)
  }

  /** Reading back the digits gives the number. */
  lemma {:induction false} DecimalRoundTrip(n: nat)
    ensures AllDigits(DecimalString(n))
    ensures DecimalValue(DecimalString(n)) == n
    decreases n
  {
    if n >= 10 {
      DecimalRoundTrip(n / 10);
      var s := DecimalString(n);
      assert s[..|s| - 1] == DecimalString(n / 10);
    }
  }

  /** A number with `k + 1` digits is written with `k + 1` characters. */
  lemma {:induction false} DecimalLength(n: nat, k: nat)
    requires Pow10(k) <= n < Pow10(k + 1)
    ensures |DecimalString(n)| == k + 1
    decreases k
  {
    if k > 0 {
      assert Pow10(k) == 10 * Pow10(k - 1);
      DecimalLength(n / 10, k - 1);
    }
  }

  /** The code issued for a draw in [0, 1): six decimal digits, between 100000 and 999999. */
  function IssueCode(draw: real): (code: string)
    requires 0.0 <= draw < 1.0
    ensures |code| == 6 && AllDigits(code)
    ensures 100000 <= DecimalValue(code) <= 999999
  {
    var n := (100000.0 + draw * 900000.0).Floor;
    assert 100000 <= n < 1000000;
    assert Pow10(5) == 100000 && Pow10(6) == 1000000;
    DecimalLength(n, 5);
    DecimalRoundTrip(n);
    DecimalString(n)
  }

  // ---------------------------------------------------------------------------
  // The two handlers, as functions of the table before the request

  /** `POST`: issue a code for the email in the body. */
  function Post(store: map<string, Entry>, body: Option<Request>, now: int, draw: real): Outcome
    requires 0.0 <= draw < 1.0
  {
    if body.None? then Outcome(Response(500, Error("Failed to send OTP")), store)
    else if !Truthy(body.value.email) then Outcome(Response(400, Error("Email is required")), store)
    else
      var email := body.value.email.value;
      Outcome(Response(200, Message("OTP sent successfully")),
              store[email := Entry(IssueCode(draw), now + CodeLifetime)])
  }

  /**
   * Where `PUT` stands when it reaches the `await` of the user lookup: it has
   * replied already, leaving a table, or the submitted code matched the stored
   * one and the lookup for that email is pending.
   */
  datatype Checked = Replied(outcome: Outcome) | AwaitingLookup(email: string)

  /** `PUT` up to the user lookup: the checks on the body and the table entry. */
  function PutCheck(store: map<string, Entry>, body: Option<Request>, now: int): (c: Checked)
    ensures c.AwaitingLookup? <==>
      && body.Some? && Truthy(body.value.email) && Truthy(body.value.otp)
      && body.value.email.value in store
      && now <= store[body.value.email.value].expires
      && store[body.value.email.value].otp == body.value.otp.value
    ensures c.AwaitingLookup? ==> c.email == body.value.email.value
  {
    if body.None? then Replied(Outcome(Response(500, Error("Failed to verify OTP")), store))
    else if !Truthy(body.value.email) || !Truthy(body.value.otp) then
      Replied(Outcome(Response(400, Error("Email and OTP are required")), store))
    else
      var email, otp := body.value.email.value, body.value.otp.value;
      if email !in store then Replied(Outcome(Response(400, Error("No OTP found for this email")), store))
      else if store[email].expires < now then
        Replied(Outcome(Response(400, Error("OTP has expired")), store - {email}))
      else if store[email].otp != otp then Replied(Outcome(Response(400, Error("Invalid OTP")), store))
      else AwaitingLookup(email)
  }

  /**
   * `PUT` after the user lookup, on the table as it is by then: a thrown
   * lookup is a 500; otherwise the entry is deleted, whatever it now holds.
   */
  function PutFinish(store: map<string, Entry>, email: string, lookup: UserLookup): Outcome
  {
    if lookup == LookupFailed then Outcome(Response(500, Error("Failed to verify OTP")), store)
    else Outcome(Response(200, Verified("OTP verified successfully", lookup == NoUser)), store - {email})
  }

  /** `PUT` when no other request runs during its lookup: the two steps back to back. */
  function Put(store: map<string, Entry>, body: Option<Request>, now: int, lookup: UserLookup): Outcome
  {
    match PutCheck(store, body, now)
    case Replied(o) => o
    case AwaitingLookup(email) => PutFinish(store, email, lookup)
  }

  // ---------------------------------------------------------------------------
  // The handlers as the server runs them, on the module-level table

  class OtpService {
    var otpStore: map<string, Entry>

    constructor ()
      ensures otpStore == map[]
    {
      otpStore := map[];
    }

    method HandlePost(body: Option<Request>, now: int, draw: real) returns (response: Response)
      requires 0.0 <= draw < 1.0
      modifies this
      ensures Outcome(response, otpStore) == Post(old(otpStore), body, now, draw)
    {
      if body.None? {
        return Response(500, Error("Failed to send OTP"));
      }
      var email := body.value.email;
      if !Truthy(email) {
        return Response(400, Error("Email is required"));
      }
      var otp := IssueCode(draw);
      otpStore := otpStore[email.value := Entry(otp, now + CodeLifetime)];
      response := Response(200, Message("OTP sent successfully"));
    }

    /** `PUT` up to the `await` of the user lookup. */
    method BeginPut(body: Option<Request>, now: int) returns (checked: Checked)
      modifies this
      ensures checked == PutCheck(old(otpStore), body, now)
      ensures otpStore == if checked.Replied? then checked.outcome.store else old(otpStore)
    {
      if body.None? {
        return Replied(Outcome(Response(500, Error("Failed to verify OTP")), otpStore));
      }
      var email, otp := body.value.email, body.value.otp;
      if !Truthy(email) || !Truthy(otp) {
        return Replied(Outcome(Response(400, Error("Email and OTP are required")), otpStore));
      }
      if email.value !in otpStore {
        return Replied(Outcome(Response(400, Error("No OTP found for this email")), otpStore));
      }
      var stored := otpStore[email.value];
      if stored.expires < now {
        otpStore := otpStore - {email.value};
        return Replied(Outcome(Response(400, Error("OTP has expired")), otpStore));
      }
      if stored.otp != otp.value {
        return Replied(Outcome(Response(400, Error("Invalid OTP")), otpStore));
      }
      checked := AwaitingLookup(email.value);
    }

    /** `PUT` from the end of the user lookup, on the table as it then is. */
    method FinishPut(email: string, lookup: UserLookup) returns (response: Response)
      modifies this
      ensures Outcome(response, otpStore) == PutFinish(old(otpStore), email, lookup)
    {
      if lookup == LookupFailed {
        return Response(500, Error("Failed to verify OTP"));
      }
      otpStore := otpStore - {email};
      response := Response(200, Verified("OTP verified successfully", lookup == NoUser));
    }

    /** A `PUT` that no other request interleaves with. */
    method HandlePut(body: Option<Request>, now: int, lookup: UserLookup) returns (response: Response)
      modifies this
      ensures Outcome(response, otpStore) == Put(old(otpStore), body, now, lookup)
    {
      var checked := BeginPut(body, now);
      if checked.Replied? {
        return checked.outcome.response;
      }
      response := FinishPut(checked.email, lookup);
    }
  }

  /**
   * Two `PUT`s with the right code, both reaching the user lookup before either
   * deletes the entry: both reply 200, so the code is used twice.
   */
  method RacingPuts(service: OtpService, email: string, now: int) returns (first: Response, second: Response)
    requires email != "" && email in service.otpStore && service.otpStore[email].otp != ""
    requires now <= service.otpStore[email].expires
    modifies service
    ensures first.status == 200 && second.status == 200
    ensures service.otpStore == old(service.otpStore) - {email}
  {
    var code := Submit(email, service.otpStore[email].otp);
    var c1 := service.BeginPut(code, now);
    var c2 := service.BeginPut(code, now);
    first := service.FinishPut(c1.email, UserFound);
    second := service.FinishPut(c2.email, UserFound);
  }

  // ---------------------------------------------------------------------------
  // Properties of issuing

  /** A body without a usable email is refused with 400, and the table is untouched. */
  lemma PostWithoutEmail(store: map<string, Entry>, req: Request, now: int, draw: real)
    requires 0.0 <= draw < 1.0
    requires !Truthy(req.email)
    ensures Post(store, Some(req), now, draw)
         == Outcome(Response(400, Error("Email is required")), store)
  {
  }

  /** Issuing fails only with an unreadable body (500) or without an email (400), and a failure stores nothing. */
  lemma PostFailureKeepsStore(store: map<string, Entry>, body: Option<Request>, now: int, draw: real)
    requires 0.0 <= draw < 1.0
    ensures var o := Post(store, body, now, draw);
      && (o.response.status == 200 <==> body.Some? && Truthy(body.value.email))
      && (body.None? ==> o.response == Response(500, Error("Failed to send OTP")))
      && (o.response.status != 200 ==> o.store == store)
  {
  }

  /**
   * Issuing for `email` stores the new code with expiry ten minutes on,
   * replacing any earlier entry for that email; no other entry changes.
   */
  lemma PostStoresCode(store: map<string, Entry>, email: string, otp: Option<string>, now: int, draw: real)
    requires 0.0 <= draw < 1.0
    requires email != ""
    ensures var o := Post(store, Some(Request(Some(email), otp)), now, draw);
      && o.response == Response(200, Message("OTP sent successfully"))
      && o.store.Keys == store.Keys + {email}
      && o.store[email] == Entry(IssueCode(draw), now + 600000)
      && forall k :: k in store && k != email ==> o.store[k] == store[k]
  {
  }

  // ---------------------------------------------------------------------------
  // Properties of verifying

  function Submit(email: string, otp: string): Option<Request>
  {
    Some(Request(Some(email), Some(otp)))
  }

  /** A body missing the email or the code is refused with 400, and the table is untouched. */
  lemma PutWithoutFields(store: map<string, Entry>, req: Request, now: int, lookup: UserLookup)
    requires !Truthy(req.email) || !Truthy(req.otp)
    ensures Put(store, Some(req), now, lookup)
         == Outcome(Response(400, Error("Email and OTP are required")), store)
  {
  }

  /** An email with no entry is refused, however the code reads, and the table is untouched. */
  lemma PutWithoutEntry(store: map<string, Entry>, email: string, otp: string, now: int, lookup: UserLookup)
    requires email != "" && otp != ""
    requires email !in store
    ensures Put(store, Submit(email, otp), now, lookup)
         == Outcome(Response(400, Error("No OTP found for this email")), store)
  {
  }

  /** Past its expiry an entry is deleted and the request fails, even with the right code. */
  lemma PutExpired(store: map<string, Entry>, email: string, otp: string, now: int, lookup: UserLookup)
    requires email != "" && otp != ""
    requires email in store && store[email].expires < now
    ensures Put(store, Submit(email, otp), now, lookup)
         == Outcome(Response(400, Error("OTP has expired")), store - {email})
  {
  }

  /** At exactly its expiry time an entry is still good. */
  lemma PutAtExpiry(store: map<string, Entry>, email: string, now: int)
    requires email in store && store[email].otp != "" && email != ""
    requires store[email].expires == now
    ensures Put(store, Submit(email, store[email].otp), now, NoUser).response.status == 200
  {
  }

  /** A wrong code fails and keeps the entry, so the right code still works afterwards. */
  lemma WrongCodeThenRetry(store: map<string, Entry>, email: string, wrong: string, now: int, later: int, lookup: UserLookup)
    requires email != "" && wrong != ""
    requires email in store && store[email].otp != wrong && store[email].otp != ""
    requires now <= later <= store[email].expires && lookup != LookupFailed
    ensures var first := Put(store, Submit(email, wrong), now, lookup);
      && first == Outcome(Response(400, Error("Invalid OTP")), store)
      && Put(first.store, Submit(email, store[email].otp), later, lookup).response.status == 200
  {
  }

  /**
   * A successful check deletes the entry and reports whether the lookup found
   * no user; replaying the same code then finds no entry.
   */
  lemma SuccessIsSingleUse(store: map<string, Entry>, email: string, now: int, later: int,
                           lookup: UserLookup, lookup2: UserLookup)
    requires email != "" && email in store && store[email].otp != ""
    requires now <= store[email].expires && lookup != LookupFailed
    ensures var first := Put(store, Submit(email, store[email].otp), now, lookup);
      && first.response == Response(200, Verified("OTP verified successfully", lookup == NoUser))
      && first.store == store - {email}
      && Put(first.store, Submit(email, store[email].otp), later, lookup2)
         == Outcome(Response(400, Error("No OTP found for this email")), first.store)
  {
  }

  /** A failing user lookup is a 500 that keeps the entry. */
  lemma LookupFailureKeepsEntry(store: map<string, Entry>, email: string, now: int)
    requires email != "" && email in store && store[email].otp != ""
    requires now <= store[email].expires
    ensures Put(store, Submit(email, store[email].otp), now, LookupFailed)
         == Outcome(Response(500, Error("Failed to verify OTP")), store)
  {
  }

  /**
   * A check succeeds only for the code stored for that email, not past its
   * expiry, and then removes exactly that entry.
   */
  lemma SuccessOnlyWithStoredCode(store: map<string, Entry>, body: Option<Request>, now: int, lookup: UserLookup)
    requires Put(store, body, now, lookup).response.status == 200
    ensures body.Some? && body.value.email.Some? && body.value.otp.Some?
    ensures var email := body.value.email.value;
      && email in store
      && store[email].otp == body.value.otp.value
      && now <= store[email].expires
      && Put(store, body, now, lookup).store == store - {email}
  {
  }

  /** Any check that fails leaves the table as it was, save that an expired entry is dropped. */
  lemma FailureKeepsOrExpires(store: map<string, Entry>, body: Option<Request>, now: int, lookup: UserLookup)
    requires Put(store, body, now, lookup).response.status != 200
    ensures var after := Put(store, body, now, lookup).store;
      after == store
      || (after == store - {body.value.email.value}
          && store[body.value.email.value].expires < now
          && Put(store, body, now, lookup).response.body == Error("OTP has expired"))
  {
  }

  /** The code just issued for an email verifies within ten minutes. */
  lemma IssueThenVerify(store: map<string, Entry>, email: string, issuedAt: int, draw: real, now: int)
    requires 0.0 <= draw < 1.0 && email != ""
    requires now <= issuedAt + 600000
    ensures var issued := Post(store, Some(Request(Some(email), None)), issuedAt, draw);
      Put(issued.store, Submit(email, IssueCode(draw)), now, NoUser)
      == Outcome(Response(200, Verified("OTP verified successfully", true)), store - {email})
  {
    var issued := Post(store, Some(Request(Some(email), None)), issuedAt, draw);
    assert issued.store - {email} == store - {email};
  }

  /** After ten minutes the issued code is rejected as expired. */
  lemma IssueThenExpire(store: map<string, Entry>, email: string, issuedAt: int, draw: real, now: int,
                        lookup: UserLookup)
    requires 0.0 <= draw < 1.0 && email != ""
    requires now > issuedAt + 600000
    ensures var issued := Post(store, Some(Request(Some(email), None)), issuedAt, draw);
      Put(issued.store, Submit(email, IssueCode(draw)), now, lookup).response
      == Response(400, Error("OTP has expired"))
  {
  }

  /** Issuing again replaces the earlier code: the earlier one no longer verifies. */
  lemma ReissueInvalidatesEarlierCode(store: map<string, Entry>, email: string, t1: int, d1: real,
                                      t2: int, d2: real, now: int, lookup: UserLookup)
    requires 0.0 <= d1 < 1.0 && 0.0 <= d2 < 1.0 && email != ""
    requires IssueCode(d1) != IssueCode(d2)
    requires now <= t2 + 600000
    ensures var first := Post(store, Some(Request(Some(email), None)), t1, d1);
      var second := Post(first.store, Some(Request(Some(email), None)), t2, d2);
      Put(second.store, Submit(email, IssueCode(d1)), now, lookup)
      == Outcome(Response(400, Error("Invalid OTP")), second.store)
  {
  }

  // ---------------------------------------------------------------------------
  // Requests that overlap at the `await` of the user lookup

  /**
   * Two `PUT`s with the right code that both pass the checks before either
   * finishes: both reply 200, and the code, meant for one use, is used twice.
   */
  lemma ConcurrentVerifiesBothSucceed(store: map<string, Entry>, email: string, now1: int, now2: int,
                                      lookup1: UserLookup, lookup2: UserLookup)
    requires email != "" && email in store && store[email].otp != ""
    requires now1 <= store[email].expires && now2 <= store[email].expires
    requires lookup1 != LookupFailed && lookup2 != LookupFailed
    ensures PutCheck(store, Submit(email, store[email].otp), now1) == AwaitingLookup(email)
    ensures PutCheck(store, Submit(email, store[email].otp), now2) == AwaitingLookup(email)
    ensures var first := PutFinish(store, email, lookup1);
      var second := PutFinish(first.store, email, lookup2);
      && first.response.status == 200 && second.response.status == 200
      && second.store == store - {email}
  {
  }

  /**
   * A `POST` for the same email that lands while a `PUT` waits on its lookup:
   * the `PUT` then deletes the code just issued, which no longer verifies.
   */
  lemma PostDuringLookupIsLost(store: map<string, Entry>, email: string, now: int, issuedAt: int, draw: real,
                               lookup: UserLookup, later: int, lookup2: UserLookup)
    requires 0.0 <= draw < 1.0 && email != ""
    requires email in store && store[email].otp != "" && now <= store[email].expires
    requires lookup != LookupFailed
    ensures PutCheck(store, Submit(email, store[email].otp), now) == AwaitingLookup(email)
    ensures var issued := Post(store, Some(Request(Some(email), None)), issuedAt, draw);
      var finished := PutFinish(issued.store, email, lookup);
      && issued.response.status == 200
      && finished.response.status == 200
      && email !in finished.store
      && Put(finished.store, Submit(email, IssueCode(draw)), later, lookup2).response
         == Response(400, Error("No OTP found for this email"))
  {
  }
}
