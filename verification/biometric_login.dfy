/**
 * `useBiometricAuth().login`: challenge, signature, verification, and — when any step fails
 * with HTTP 404 (device not registered) — new keys, signup, and a complete new login. The
 * source sets no bound on those re-entries; the model bounds them with `fuel`.
 */
module BiometricLogin {
  import opened Wrappers
  import opened Json

  /** A thrown error: its `response.status`, if it has one. */
  datatype ApiError = ApiError(status: Option<int>, message: string)

  const NotFound := 404

  /** The error `login` throws itself when no signature came back. It has no status. */
  const MissingSignature := ApiError(None, "지문 서명이 생성되지 않았습니다.")

  /**
   * The backend and the device as oracles, each indexed by the login attempt it is called in
   * (0 for the first `login()` invocation, 1 for the one after the first signup, …).
   */
  datatype Oracles = Oracles(
    loginStart: (nat, string) -> Result<string, ApiError>,                  // deviceId -> challenge
    createSignature: (nat, string) -> Result<Option<string>, ApiError>,    // payload -> {signature}
    loginVerify: (nat, string, string, string) -> Result<Json, ApiError>,  // (deviceId, challenge, signature) -> token
    createKeys: nat -> Result<string, ApiError>,                            // -> publicKey
    signup: (nat, string, string) -> Result<Json, ApiError>)               // (deviceId, publicKey)

  /** The calls `login` makes, in order. */
  datatype Call =
    | LoginStart(deviceId: string)
    | CreateSignature(payload: string)
    | LoginVerify(deviceId: string, challenge: string, signature: string)
    | CreateKeys
    | Signup(deviceId: string, publicKey: string)

  /** The body of the `try` block for one attempt: its token or the error it threw, and its calls. */
  datatype AttemptRun = AttemptRun(result: Result<Json, ApiError>, calls: seq<Call>)

  /** One pass through the `try` block. */
  function Attempt(o: Oracles, n: nat, deviceId: string): (a: AttemptRun)
    ensures 1 <= |a.calls| <= 3 && a.calls[0] == LoginStart(deviceId)
    ensures a.result.Success? ==> |a.calls| == 3
    ensures |a.calls| == 1 <==> o.loginStart(n, deviceId).Failure?
    ensures |a.calls| == 1 ==> a.result == Failure(o.loginStart(n, deviceId).error)
    ensures |a.calls| == 2 ==>
              && a.result.Failure?
              && var signed := o.createSignature(n, o.loginStart(n, deviceId).value);
                 if signed.Failure? then a.result == Failure(signed.error)
                 else (signed.value.None? || signed.value.value == "") && a.result == Failure(MissingSignature)
    ensures |a.calls| >= 2 ==>
              && o.loginStart(n, deviceId).Success?
              && a.calls[1] == CreateSignature(o.loginStart(n, deviceId).value)
    ensures forall i :: 0 <= i < |a.calls| && a.calls[i].LoginVerify? ==> i == 2
    ensures |a.calls| == 3 ==>
              && a.calls[2].LoginVerify?
              && a.calls[2].deviceId == deviceId
              && a.calls[2].challenge == o.loginStart(n, deviceId).value
              && a.calls[2].signature != ""
              && o.createSignature(n, a.calls[2].challenge) == Success(Some(a.calls[2].signature))
              && a.result == o.loginVerify(n, deviceId, a.calls[2].challenge, a.calls[2].signature)
    ensures forall i :: 0 <= i < |a.calls| ==> !a.calls[i].CreateKeys? && !a.calls[i].Signup?
  {
    match o.loginStart(n, deviceId)
    case Failure(e) => AttemptRun(Failure(e), [LoginStart(deviceId)])
    case Success(challenge) =>
      var calls := [LoginStart(deviceId), CreateSignature(challenge)];
      match o.createSignature(n, challenge)
      case Failure(e) => AttemptRun(Failure(e), calls)
      case Success(signature) =>
        if signature.None? || signature.value == "" then AttemptRun(Failure(MissingSignature), calls)
        else
          AttemptRun(o.loginVerify(n, deviceId, challenge, signature.value),
                     calls + [LoginVerify(deviceId, challenge, signature.value)])
  }

  datatype Outcome = LoggedIn(token: Json) | LoginFailed(error: ApiError) | OutOfFuel

  datatype LoginRun = LoginRun(outcome: Outcome, calls: seq<Call>)

  /** Is this the `error?.response?.status === 404` the `catch` recovers from? */
  predicate IsNotFound(e: ApiError) {
    e.status == Some(NotFound)
  }

  /**
   * `login()` from attempt `n` on, with room for `fuel` invocations. A 404 leads to
   * `createKeys`, `biometricSignup(deviceId, publicKey)` and a fresh `login()`; a failure of
   * those two is thrown from the `catch` block and reaches the caller as it is. Any other
   * error is rethrown unchanged.
   */
  function Login(o: Oracles, deviceId: string, n: nat, fuel: nat): (r: LoginRun)
    decreases fuel
    ensures fuel == 0 <==> r.calls == []
    ensures fuel > 0 ==> r.calls[0] == LoginStart(deviceId)
    ensures r.outcome.LoggedIn? ==>
              && |r.calls| >= 3
              && r.calls[|r.calls| - 3] == LoginStart(deviceId)
              && r.calls[|r.calls| - 1].LoginVerify?
              && r.calls[|r.calls| - 1].deviceId == deviceId
              && r.calls[|r.calls| - 2] == CreateSignature(r.calls[|r.calls| - 1].challenge)
    ensures forall i :: 0 <= i < |r.calls| && r.calls[i].Signup? ==> i > 0 && r.calls[i - 1] == CreateKeys
    ensures forall i :: 0 <= i < |r.calls| && r.calls[i].Signup? ==> r.calls[i].deviceId == deviceId
  {
    if fuel == 0 then LoginRun(OutOfFuel, [])
    else
      var a := Attempt(o, n, deviceId);
      match a.result
      case Success(token) => LoginRun(LoggedIn(token), a.calls)
      case Failure(e) =>
        if !IsNotFound(e) then LoginRun(LoginFailed(e), a.calls)
        else
          match o.createKeys(n)
          case Failure(e2) => LoginRun(LoginFailed(e2), a.calls + [CreateKeys])
          case Success(publicKey) =>
            var recovery := a.calls + [CreateKeys, Signup(deviceId, publicKey)];
            match o.signup(n, deviceId, publicKey)
            case Failure(e3) => LoginRun(LoginFailed(e3), recovery)
            case Success(_) =>
              var again := Login(o, deviceId, n + 1, fuel - 1);
              LoginRun(again.outcome, recovery + again.calls)
  }

  /**
   * The happy path: start with the device id, sign exactly the returned challenge, verify
   * with the same device id, challenge and signature, and return what verify returned.
   */
  lemma HappyPath(o: Oracles, deviceId: string, n: nat, fuel: nat, challenge: string, signature: string, token: Json)
    requires fuel > 0
    requires o.loginStart(n, deviceId) == Success(challenge)
    requires o.createSignature(n, challenge) == Success(Some(signature)) && signature != ""
    requires o.loginVerify(n, deviceId, challenge, signature) == Success(token)
    ensures Login(o, deviceId, n, fuel)
            == LoginRun(LoggedIn(token), [LoginStart(deviceId), CreateSignature(challenge), LoginVerify(deviceId, challenge, signature)])
  {
  }

  /** A missing or empty signature aborts before verify, and, having no status, is rethrown. */
  lemma MissingSignatureIsRethrown(o: Oracles, deviceId: string, n: nat, fuel: nat, challenge: string)
    requires fuel > 0
    requires o.loginStart(n, deviceId) == Success(challenge)
    requires o.createSignature(n, challenge) == Success(None) || o.createSignature(n, challenge) == Success(Some(""))
    ensures Login(o, deviceId, n, fuel) == LoginRun(LoginFailed(MissingSignature), [LoginStart(deviceId), CreateSignature(challenge)])
  {
  }

  /** An error other than 404 is rethrown unchanged, and no keys or signup are attempted. */
  lemma OtherErrorsRethrown(o: Oracles, deviceId: string, n: nat, fuel: nat)
    requires fuel > 0
    requires Attempt(o, n, deviceId).result.Failure? && !IsNotFound(Attempt(o, n, deviceId).result.error)
    ensures Login(o, deviceId, n, fuel) == LoginRun(LoginFailed(Attempt(o, n, deviceId).result.error), Attempt(o, n, deviceId).calls)
    ensures forall c :: c in Login(o, deviceId, n, fuel).calls ==> !c.Signup? && !c.CreateKeys?
  {
  }

  /**
   * A 404 at any step leads to new keys, a signup with that public key, and a complete new
   * attempt; and a failure of the key creation or the signup — even a 404 — is final.
   */
  lemma NotFoundRecovers(o: Oracles, deviceId: string, n: nat, fuel: nat)
    requires fuel > 0
    requires Attempt(o, n, deviceId).result.Failure? && IsNotFound(Attempt(o, n, deviceId).result.error)
    ensures var r := Login(o, deviceId, n, fuel);
            var a := Attempt(o, n, deviceId);
            match o.createKeys(n)
            case Failure(e2) => r == LoginRun(LoginFailed(e2), a.calls + [CreateKeys])
            case Success(pk) =>
              match o.signup(n, deviceId, pk)
              case Failure(e3) => r == LoginRun(LoginFailed(e3), a.calls + [CreateKeys, Signup(deviceId, pk)])
              case Success(_) =>
                var again := Login(o, deviceId, n + 1, fuel - 1);
                r == LoginRun(again.outcome, a.calls + [CreateKeys, Signup(deviceId, pk)] + again.calls)
  {
  }

  /** Number of signups in a call sequence. */
  function Signups(calls: seq<Call>): nat {
    if |calls| == 0 then 0 else (if calls[0].Signup? then 1 else 0) + Signups(calls[1..])
  }

  lemma {:induction false} SignupsAppend(a: seq<Call>, b: seq<Call>)
    ensures Signups(a + b) == Signups(a) + Signups(b)
  {
    if |a| == 0 {
      assert a + b == b;
    } else {
      assert (a + b)[1..] == a[1..] + b;
      SignupsAppend(a[1..], b);
    }
  }

  /**
   * No retry cap: if the device keeps being reported unknown while keys and signup succeed,
   * every one of `fuel` invocations performs a signup and re-enters `login()`.
   */
  lemma {:induction false} RetriesAreUncapped(o: Oracles, deviceId: string, n: nat, fuel: nat)
    requires forall m :: o.loginStart(m, deviceId) == Failure(ApiError(Some(NotFound), "not registered"))
    requires forall m :: o.createKeys(m).Success?
    requires forall m, pk :: o.signup(m, deviceId, pk).Success?
    decreases fuel
    ensures Login(o, deviceId, n, fuel).outcome == OutOfFuel
    ensures Signups(Login(o, deviceId, n, fuel).calls) == fuel
  {
    if fuel > 0 {
      RetriesAreUncapped(o, deviceId, n + 1, fuel - 1);
      assert Attempt(o, n, deviceId) == AttemptRun(Failure(ApiError(Some(NotFound), "not registered")), [LoginStart(deviceId)]);
      var pk := o.createKeys(n).value;
      var again := Login(o, deviceId, n + 1, fuel - 1);
      var recovery := [LoginStart(deviceId), CreateKeys, Signup(deviceId, pk)];
      assert Login(o, deviceId, n, fuel).calls == recovery + again.calls;
      SignupsAppend(recovery, again.calls);
      assert recovery[1..] == [CreateKeys, Signup(deviceId, pk)];
      assert recovery[1..][1..] == [Signup(deviceId, pk)];
      assert recovery[1..][1..][1..] == [];
      assert Signups(recovery[1..][1..]) == 1;
      assert Signups(recovery[1..]) == 1;
    }
  }
}
