/** The stores of the OAuth 2 server: authorization codes, access tokens and registered
    clients. Every step is one section under one lock, or one look at the clock; redeeming
    a code takes three, the code being taken out, its expiry judged, and the token issued.
    Random values are drawn fresh, and time does not go back. */
module OAuth2 {
  import opened Wrappers
  import opened Seqs

  /** `s256` is the PKCE transformation of a verifier. */
  datatype Config = Config(clientId: string, clientSecret: string, tokenExpiry: nat, s256: string -> string)

  datatype Token = Token(client: string, expires: nat)

  datatype Code = Code(
    client: string, redirect: string, challenge: Option<string>, challengeMethod: Option<string>, expires: nat)

  /** An attempt to redeem a code that has been taken out of the store; `judgedAt` is when
      the clock was read to tell whether the code has expired. */
  datatype Attempt = Attempt(
    code: string, stored: Code, client: string, redirect: Option<string>, verifier: Option<string>,
    judgedAt: Option<nat>)

  /** A token that was issued at `at`, for an attempt or for the client's own credentials. */
  datatype Grant = Grant(token: string, client: string, at: nat, attempt: Option<Attempt>)

  datatype Problem =
    | MissingClientId | MissingRedirect | UnsupportedResponseType | UnknownClient | UnsupportedChallenge
    | MissingCode | InvalidClient | UnknownCode | CodeExpired | ClientMismatch | RedirectMismatch
    | MissingVerifier | PkceFailed

  datatype State = State(
    tokens: map<string, Token>,
    codes: map<string, Code>,
    clients: map<string, string>,   // secrets by client id
    attempts: map<nat, Attempt>,    // under way
    everTokens: map<string, Token>, // history: all tokens, forgotten or not
    everCodes: map<string, Code>,   // history
    spent: set<string>,             // history: codes that were taken out
    grants: seq<Grant>,             // history
    clock: nat)

  const INIT: State := State(map[], map[], map[], map[], map[], map[], {}, [], 0)

  const CODE_LIFETIME: nat := 600

  datatype Query = Query(
    clientId: Option<string>, redirect: Option<string>, responseType: Option<string>,
    challenge: Option<string>, challengeMethod: Option<string>, state: Option<string>)

  datatype Step =
    | Register(id: string, secret: string)
    | Authorize(q: Query, code: string, now: nat, later: nat)
    | TakeCode(r: nat, code: string, client: string, secret: string,
               redirect: Option<string>, verifier: Option<string>)
    | Judge(r: nat, now: nat)
    | Conclude(r: nat, token: string, now: nat, later: nat)
    | Credentials(client: string, secret: string, token: string, now: nat, later: nat)

  predicate Enabled(cfg: Config, s: State, step: Step) {
    match step
    case Register(id, _) => id !in s.clients && id != cfg.clientId
    case Authorize(_, code, now, later) => code !in s.everCodes && s.clock <= now <= later
    case TakeCode(r, _, _, _, _, _) => r !in s.attempts
    case Judge(r, now) => r in s.attempts && s.attempts[r].judgedAt.None? && s.clock <= now
    case Conclude(r, token, now, later) =>
      r in s.attempts && s.attempts[r].judgedAt.Some? && token !in s.everTokens && s.clock <= now <= later
    case Credentials(_, _, token, now, later) => token !in s.everTokens && s.clock <= now <= later
  }

  predicate VerifyClient(cfg: Config, clients: map<string, string>, client: string, secret: string) {
    || (client == cfg.clientId && secret == cfg.clientSecret)
    || (client in clients && clients[client] == secret)
  }

  /** What is wrong with an authorization request, if anything. */
  function QueryProblem(cfg: Config, clients: map<string, string>, q: Query): Option<Problem> {
    if q.clientId.None? then Some(MissingClientId)
    else if q.redirect.None? then Some(MissingRedirect)
    else if q.responseType != Some("code") then Some(UnsupportedResponseType)
    else if q.clientId.value != cfg.clientId && q.clientId.value !in clients then Some(UnknownClient)
    else if q.challenge.Some? && q.challengeMethod != Some("S256") then Some(UnsupportedChallenge)
    else None
  }

  function LiveCodes(codes: map<string, Code>, now: nat): map<string, Code> {
    map c | c in codes && now < codes[c].expires :: codes[c]
  }

  function LiveTokens(tokens: map<string, Token>, now: nat): map<string, Token> {
    map t | t in tokens && now < tokens[t].expires :: tokens[t]
  }

  function AuthorizeStep(cfg: Config, s: State, q: Query, code: string, now: nat, later: nat): State {
    if QueryProblem(cfg, s.clients, q).Some? then s.(clock := later)
    else
      var stored := Code(q.clientId.value, q.redirect.value, q.challenge, q.challengeMethod, later + CODE_LIFETIME);
      s.(codes := LiveCodes(s.codes, now)[code := stored], everCodes := s.everCodes[code := stored], clock := later)
  }

  /** The code is taken out whatever comes of the attempt. */
  function TakeStep(cfg: Config, s: State, r: nat, code: string, client: string, secret: string,
                    redirect: Option<string>, verifier: Option<string>): State
  {
    if !VerifyClient(cfg, s.clients, client, secret) || code !in s.codes then s
    else s.(codes := s.codes - {code},
            spent := s.spent + {code},
            attempts := s.attempts[r := Attempt(code, s.codes[code], client, redirect, verifier, None)])
  }

  /** What is wrong with an attempt, if anything, in the order of the checks. */
  function AttemptProblem(cfg: Config, a: Attempt): Option<Problem>
    requires a.judgedAt.Some?
  {
    if a.judgedAt.value > a.stored.expires then Some(CodeExpired)
    else if a.stored.client != a.client then Some(ClientMismatch)
    else if a.redirect.Some? && a.redirect.value != a.stored.redirect then Some(RedirectMismatch)
    else if a.stored.challenge.None? then None
    else if a.verifier.None? then Some(MissingVerifier)
    else if a.stored.challengeMethod.Some? && a.stored.challengeMethod.value != "S256" then Some(UnsupportedChallenge)
    else if cfg.s256(a.verifier.value) != a.stored.challenge.value then Some(PkceFailed)
    else None
  }

  function Issue(cfg: Config, s: State, client: string, token: string, attempt: Option<Attempt>,
                 now: nat, later: nat): State
  {
    var stored := Token(client, later + cfg.tokenExpiry);
    s.(tokens := LiveTokens(s.tokens, now)[token := stored],
       everTokens := s.everTokens[token := stored],
       grants := s.grants + [Grant(token, client, later, attempt)],
       clock := later)
  }

  function JudgeStep(s: State, r: nat, now: nat): State
    requires r in s.attempts
  {
    s.(attempts := s.attempts[r := s.attempts[r].(judgedAt := Some(now))], clock := now)
  }

  function ConcludeStep(cfg: Config, s: State, r: nat, token: string, now: nat, later: nat): State
    requires r in s.attempts && s.attempts[r].judgedAt.Some?
  {
    var a := s.attempts[r];
    var t := s.(attempts := s.attempts - {r}, clock := later);
    if AttemptProblem(cfg, a).Some? then t else Issue(cfg, t, a.client, token, Some(a), now, later)
  }

  function CredentialsStep(cfg: Config, s: State, client: string, secret: string, token: string,
                           now: nat, later: nat): State
  {
    if VerifyClient(cfg, s.clients, client, secret) then Issue(cfg, s, client, token, None, now, later)
    else s.(clock := later)
  }

  function Apply(cfg: Config, s: State, step: Step): State
    requires Enabled(cfg, s, step)
  {
    match step
    case Register(id, secret) => s.(clients := s.clients[id := secret])
    case Authorize(q, code, now, later) => AuthorizeStep(cfg, s, q, code, now, later)
    case TakeCode(r, code, client, secret, redirect, verifier) =>
      TakeStep(cfg, s, r, code, client, secret, redirect, verifier)
    case Judge(r, now) => JudgeStep(s, r, now)
    case Conclude(r, token, now, later) => ConcludeStep(cfg, s, r, token, now, later)
    case Credentials(client, secret, token, now, later) => CredentialsStep(cfg, s, client, secret, token, now, later)
  }

  function Run(cfg: Config, s: State, steps: seq<Step>): Option<State>
    decreases |steps|
  {
    if steps == [] then Some(s)
    else if !Enabled(cfg, s, steps[0]) then None
    else Run(cfg, Apply(cfg, s, steps[0]), steps[1..])
  }

  /** Whether a token is accepted: it is in the store and has not expired. */
  predicate Accepts(tokens: map<string, Token>, token: string, now: nat) {
    token in tokens && now < tokens[token].expires
  }

  // ── The invariant ─────────────────────────────────────────────────────

  /** Forgotten tokens have expired. */
  ghost predicate TokensKept(s: State) {
    && (forall t :: t in s.tokens ==> t in s.everTokens && s.tokens[t] == s.everTokens[t])
    && (forall t :: t in s.everTokens && t !in s.tokens ==> s.everTokens[t].expires <= s.clock)
  }

  ghost predicate GrantsMatch(cfg: Config, s: State) {
    forall k :: 0 <= k < |s.grants| ==>
      && s.grants[k].token in s.everTokens
      && s.everTokens[s.grants[k].token] == Token(s.grants[k].client, s.grants[k].at + cfg.tokenExpiry)
  }

  function TokensOf(grants: seq<Grant>): seq<string> {
    seq(|grants|, k requires 0 <= k < |grants| => grants[k].token)
  }

  /** Every token ever issued has its grant, and one only. */
  ghost predicate TokensGranted(cfg: Config, s: State) {
    && GrantsMatch(cfg, s)
    && (forall t :: t in s.everTokens ==> t in TokensOf(s.grants))
    && Distinct(TokensOf(s.grants))
  }

  /** A code is in the store, or was taken out; and who took it out is known. */
  ghost predicate CodesOnce(s: State) {
    && (forall c :: c in s.codes ==> c in s.everCodes && s.codes[c] == s.everCodes[c] && c !in s.spent)
    && (forall c :: c in s.spent ==> c in s.everCodes)
    && (forall r :: r in s.attempts ==>
          && s.attempts[r].code in s.spent
          && s.attempts[r].stored == s.everCodes[s.attempts[r].code])
    && (forall q, r :: q in s.attempts && r in s.attempts && q != r ==> s.attempts[q].code != s.attempts[r].code)
  }

  /** Codes that are forgotten without an attempt have expired. */
  ghost predicate CodesKept(s: State) {
    forall c :: c in s.everCodes && c !in s.codes && c !in s.spent ==> s.everCodes[c].expires <= s.clock
  }

  ghost predicate GrantsOnce(cfg: Config, s: State) {
    && (forall k :: 0 <= k < |s.grants| && s.grants[k].attempt.Some? ==> Justified(cfg, s, s.grants[k]))
    && (forall k, r :: 0 <= k < |s.grants| && s.grants[k].attempt.Some? && r in s.attempts ==>
          s.grants[k].attempt.value.code != s.attempts[r].code)
    && (forall j, k :: 0 <= j < k < |s.grants| && s.grants[j].attempt.Some? && s.grants[k].attempt.Some? ==>
          s.grants[j].attempt.value.code != s.grants[k].attempt.value.code)
  }

  /** The token was issued to the client the code was made out to, in time, for the same
      redirection if one was named, and against the verifier of the challenge if there was
      one. */
  ghost predicate Justified(cfg: Config, s: State, g: Grant)
    requires g.attempt.Some?
  {
    var a := g.attempt.value;
    && a.code in s.spent && a.code in s.everCodes
    && var stored := s.everCodes[a.code];
      && a.stored == stored
      && g.client == a.client == stored.client
      && a.judgedAt.Some? && a.judgedAt.value <= stored.expires
      && (a.redirect.Some? ==> a.redirect.value == stored.redirect)
      && (stored.challenge.Some? ==> a.verifier.Some? && cfg.s256(a.verifier.value) == stored.challenge.value)
  }

  ghost predicate Inv(cfg: Config, s: State) {
    TokensKept(s) && TokensGranted(cfg, s) && CodesOnce(s) && CodesKept(s) && GrantsOnce(cfg, s)
  }

  lemma IssueKeepsTokens(cfg: Config, s: State, client: string, token: string, attempt: Option<Attempt>,
                         now: nat, later: nat)
    requires TokensKept(s) && token !in s.everTokens && s.clock <= now <= later
    ensures TokensKept(Issue(cfg, s, client, token, attempt, now, later))
  {
  }

  lemma IssueKeepsGranted(cfg: Config, s: State, client: string, token: string, attempt: Option<Attempt>,
                          now: nat, later: nat)
    requires TokensGranted(cfg, s) && token !in s.everTokens
    ensures TokensGranted(cfg, Issue(cfg, s, client, token, attempt, now, later))
  {
    hide LiveTokens, TokensOf, Distinct;
    var t := Issue(cfg, s, client, token, attempt, now, later);
    TokensOfAppend(s.grants, Grant(token, client, later, attempt));
    NewToken(cfg, s, token);
    AppendDistinct(TokensOf(s.grants), token);
    assert TokensOf(t.grants)[|s.grants|] == token;
  }

  lemma TokensOfAppend(grants: seq<Grant>, g: Grant)
    ensures TokensOf(grants + [g]) == TokensOf(grants) + [g.token] && |TokensOf(grants)| == |grants|
  {
  }

  lemma NewToken(cfg: Config, s: State, token: string)
    requires GrantsMatch(cfg, s) && token !in s.everTokens
    ensures token !in TokensOf(s.grants)
  {
    assert forall k :: 0 <= k < |s.grants| ==> TokensOf(s.grants)[k] == s.grants[k].token;
  }

  lemma SameTokens(cfg: Config, s: State, t: State)
    requires TokensKept(s) && TokensGranted(cfg, s)
    requires t.tokens == s.tokens && t.everTokens == s.everTokens && t.grants == s.grants && s.clock <= t.clock
    ensures TokensKept(t) && TokensGranted(cfg, t)
  {
  }

  /** Attempts may end, or begin with a code not spent before; codes may be added. */
  lemma SameGrants(cfg: Config, s: State, t: State)
    requires GrantsOnce(cfg, s) && t.grants == s.grants && s.spent <= t.spent
    requires forall c :: c in s.everCodes ==> c in t.everCodes && t.everCodes[c] == s.everCodes[c]
    requires forall r :: r in t.attempts ==>
      t.attempts[r].code !in s.spent || (r in s.attempts && t.attempts[r].code == s.attempts[r].code)
    ensures GrantsOnce(cfg, t)
  {
    forall k | 0 <= k < |s.grants| && s.grants[k].attempt.Some? ensures Justified(cfg, t, s.grants[k]) {
      assert Justified(cfg, s, s.grants[k]);
    }
  }

  lemma ForgetKeepsCodes(s: State, now: nat)
    requires CodesOnce(s)
    ensures CodesOnce(s.(codes := LiveCodes(s.codes, now)))
  {
  }

  lemma NewCodeKeeps(s: State, code: string, stored: Code, later: nat)
    requires CodesOnce(s) && code !in s.everCodes
    ensures CodesOnce(s.(codes := s.codes[code := stored], everCodes := s.everCodes[code := stored], clock := later))
  {
  }

  lemma AuthorizeKeepsCodes(cfg: Config, s: State, q: Query, code: string, now: nat, later: nat)
    requires CodesOnce(s) && code !in s.everCodes
    ensures CodesOnce(AuthorizeStep(cfg, s, q, code, now, later))
  {
    hide LiveCodes, CodesOnce;
    if QueryProblem(cfg, s.clients, q).Some? {
      LaterKeepsCodes(s, later);
    } else {
      var stored := Code(q.clientId.value, q.redirect.value, q.challenge, q.challengeMethod, later + CODE_LIFETIME);
      ForgetKeepsCodes(s, now);
      NewCodeKeeps(s.(codes := LiveCodes(s.codes, now)), code, stored, later);
    }
  }

  lemma LaterKeepsCodes(s: State, later: nat)
    requires CodesOnce(s)
    ensures CodesOnce(s.(clock := later))
  {
  }

  lemma AuthorizeKeeps(cfg: Config, s: State, q: Query, code: string, now: nat, later: nat)
    requires Inv(cfg, s) && Enabled(cfg, s, Authorize(q, code, now, later))
    ensures Inv(cfg, AuthorizeStep(cfg, s, q, code, now, later))
  {
    hide TokensKept, TokensGranted, CodesOnce, CodesKept, GrantsOnce, AuthorizeStep;
    var t := AuthorizeStep(cfg, s, q, code, now, later);
    AuthorizeIs(cfg, s, q, code, now, later);
    AuthorizeAdds(cfg, s, q, code, now, later);
    SameTokens(cfg, s, t);
    SameGrants(cfg, s, t);
    AuthorizeKeepsCodes(cfg, s, q, code, now, later);
    AuthorizeForgetsExpired(cfg, s, q, code, now, later);
  }

  lemma AuthorizeIs(cfg: Config, s: State, q: Query, code: string, now: nat, later: nat)
    ensures var t := AuthorizeStep(cfg, s, q, code, now, later);
      && t.tokens == s.tokens && t.everTokens == s.everTokens && t.grants == s.grants && t.clock == later
      && t.spent == s.spent && t.attempts == s.attempts
  {
    hide QueryProblem, LiveCodes;
  }

  lemma AuthorizeAdds(cfg: Config, s: State, q: Query, code: string, now: nat, later: nat)
    requires code !in s.everCodes
    ensures var t := AuthorizeStep(cfg, s, q, code, now, later);
      forall c :: c in s.everCodes ==> c in t.everCodes && t.everCodes[c] == s.everCodes[c]
  {
    hide QueryProblem, LiveCodes;
  }

  lemma AuthorizeForgetsExpired(cfg: Config, s: State, q: Query, code: string, now: nat, later: nat)
    requires CodesOnce(s) && CodesKept(s) && s.clock <= now <= later
    ensures CodesKept(AuthorizeStep(cfg, s, q, code, now, later))
  {
    hide QueryProblem;
  }

  lemma TakeKeepsCodes(s: State, r: nat, a: Attempt)
    requires CodesOnce(s) && a.code in s.codes && a.stored == s.codes[a.code] && r !in s.attempts
    ensures CodesOnce(s.(codes := s.codes - {a.code}, spent := s.spent + {a.code}, attempts := s.attempts[r := a]))
  {
  }

  lemma TakeKeeps(cfg: Config, s: State, r: nat, code: string, client: string, secret: string,
                  redirect: Option<string>, verifier: Option<string>)
    requires Inv(cfg, s) && r !in s.attempts
    ensures Inv(cfg, TakeStep(cfg, s, r, code, client, secret, redirect, verifier))
  {
    hide TokensKept, TokensGranted, GrantsOnce, VerifyClient;
    var t := TakeStep(cfg, s, r, code, client, secret, redirect, verifier);
    SameTokens(cfg, s, t);
    if VerifyClient(cfg, s.clients, client, secret) && code in s.codes {
      SameGrants(cfg, s, t);
      TakeKeepsCodes(s, r, Attempt(code, s.codes[code], client, redirect, verifier, None));
    }
  }

  /** The attempt `r` is over; its code is in nobody's hands any more. */
  lemma ForgetKeeps(cfg: Config, s: State, r: nat, later: nat)
    requires Inv(cfg, s) && r in s.attempts && s.clock <= later
    ensures var t := s.(attempts := s.attempts - {r}, clock := later);
      && Inv(cfg, t)
      && forall k :: 0 <= k < |t.grants| && t.grants[k].attempt.Some? ==>
           t.grants[k].attempt.value.code != s.attempts[r].code
  {
    hide TokensKept, TokensGranted;
    var t := s.(attempts := s.attempts - {r}, clock := later);
    SameTokens(cfg, s, t);
    SameGrants(cfg, s, t);
  }

  lemma IssueKeepsCodes(cfg: Config, s: State, client: string, token: string, attempt: Option<Attempt>,
                        now: nat, later: nat)
    requires CodesOnce(s) && GrantsOnce(cfg, s)
    requires var g := Grant(token, client, later, attempt);
      attempt.Some? ==>
        && Justified(cfg, s, g)
        && (forall r :: r in s.attempts ==> s.attempts[r].code != attempt.value.code)
        && (forall k :: 0 <= k < |s.grants| && s.grants[k].attempt.Some? ==>
              s.grants[k].attempt.value.code != attempt.value.code)
    ensures var t := Issue(cfg, s, client, token, attempt, now, later);
      CodesOnce(t) && GrantsOnce(cfg, t)
  {
    hide LiveTokens;
    var t := Issue(cfg, s, client, token, attempt, now, later);
    forall k | 0 <= k < |t.grants| && t.grants[k].attempt.Some? ensures Justified(cfg, t, t.grants[k]) {
      if k < |s.grants| {
        assert Justified(cfg, s, s.grants[k]);
      }
    }
  }

  lemma JudgeKeeps(cfg: Config, s: State, r: nat, now: nat)
    requires Inv(cfg, s) && Enabled(cfg, s, Judge(r, now))
    ensures Inv(cfg, JudgeStep(s, r, now))
  {
    hide TokensGranted, TokensKept, GrantsOnce;
    var t := JudgeStep(s, r, now);
    SameTokens(cfg, s, t);
    SameGrants(cfg, s, t);
  }

  lemma ConcludeKeeps(cfg: Config, s: State, r: nat, token: string, now: nat, later: nat)
    requires Inv(cfg, s) && Enabled(cfg, s, Conclude(r, token, now, later))
    ensures Inv(cfg, ConcludeStep(cfg, s, r, token, now, later))
  {
    hide TokensGranted, TokensKept, CodesKept, GrantsOnce, LiveTokens;
    var a := s.attempts[r];
    ForgetKeeps(cfg, s, r, later);
    if AttemptProblem(cfg, a).None? {
      var t := s.(attempts := s.attempts - {r});
      ForgetKeeps(cfg, s, r, s.clock);
      assert t.(clock := s.clock) == t;
      IssueKeeps(cfg, t, a.client, token, Some(a), now, later);
    }
  }

  lemma IssueKeeps(cfg: Config, s: State, client: string, token: string, attempt: Option<Attempt>,
                   now: nat, later: nat)
    requires Inv(cfg, s) && token !in s.everTokens && s.clock <= now <= later
    requires var g := Grant(token, client, later, attempt);
      attempt.Some? ==>
        && Justified(cfg, s, g)
        && (forall r :: r in s.attempts ==> s.attempts[r].code != attempt.value.code)
        && (forall k :: 0 <= k < |s.grants| && s.grants[k].attempt.Some? ==>
              s.grants[k].attempt.value.code != attempt.value.code)
    ensures Inv(cfg, Issue(cfg, s, client, token, attempt, now, later))
  {
    hide TokensGranted, TokensKept, CodesOnce, CodesKept, GrantsOnce, Issue;
    IssueKeepsExpired(cfg, s, client, token, attempt, now, later);
    IssueKeepsTokens(cfg, s, client, token, attempt, now, later);
    IssueKeepsGranted(cfg, s, client, token, attempt, now, later);
    IssueKeepsCodes(cfg, s, client, token, attempt, now, later);
  }

  lemma IssueKeepsExpired(cfg: Config, s: State, client: string, token: string, attempt: Option<Attempt>,
                          now: nat, later: nat)
    requires CodesKept(s) && s.clock <= later
    ensures CodesKept(Issue(cfg, s, client, token, attempt, now, later))
  {
  }

  lemma StepKeeps(cfg: Config, s: State, step: Step)
    requires Inv(cfg, s) && Enabled(cfg, s, step)
    ensures Inv(cfg, Apply(cfg, s, step))
  {
    hide TokensGranted, TokensKept, CodesOnce, CodesKept, GrantsOnce, AuthorizeStep, TakeStep, JudgeStep,
         ConcludeStep, Issue, VerifyClient;
    match step
    case Register(id, secret) => RegisterKeeps(cfg, s, id, secret);
    case Authorize(q, code, now, later) => AuthorizeKeeps(cfg, s, q, code, now, later);
    case TakeCode(r, code, client, secret, redirect, verifier) =>
      TakeKeeps(cfg, s, r, code, client, secret, redirect, verifier);
    case Judge(r, now) => JudgeKeeps(cfg, s, r, now);
    case Conclude(r, token, now, later) => ConcludeKeeps(cfg, s, r, token, now, later);
    case Credentials(client, secret, token, now, later) =>
      if VerifyClient(cfg, s.clients, client, secret) {
        IssueKeeps(cfg, s, client, token, None, now, later);
      } else {
        LaterKeeps(cfg, s, later);
      }
  }

  lemma RegisterKeeps(cfg: Config, s: State, id: string, secret: string)
    requires Inv(cfg, s)
    ensures Inv(cfg, s.(clients := s.clients[id := secret]))
  {
    hide TokensGranted, TokensKept, GrantsOnce;
    var t := s.(clients := s.clients[id := secret]);
    SameTokens(cfg, s, t);
    SameGrants(cfg, s, t);
  }

  lemma LaterKeeps(cfg: Config, s: State, later: nat)
    requires Inv(cfg, s) && s.clock <= later
    ensures Inv(cfg, s.(clock := later))
  {
    hide TokensGranted, TokensKept, GrantsOnce;
    var t := s.(clock := later);
    SameTokens(cfg, s, t);
    SameGrants(cfg, s, t);
  }

  lemma {:induction false} RunKeeps(cfg: Config, s: State, steps: seq<Step>)
    requires Inv(cfg, s) && Run(cfg, s, steps).Some?
    ensures Inv(cfg, Run(cfg, s, steps).value)
    decreases |steps|
  {
    hide Apply, Inv;
    if steps == [] {
    } else {
      StepKeeps(cfg, s, steps[0]);
      RunKeeps(cfg, Apply(cfg, s, steps[0]), steps[1..]);
    }
  }

  lemma Reachable(cfg: Config, steps: seq<Step>)
    requires Run(cfg, INIT, steps).Some?
    ensures Inv(cfg, Run(cfg, INIT, steps).value)
  {
    hide Run;
    assert Inv(cfg, INIT);
    RunKeeps(cfg, INIT, steps);
  }

  // ── Results ───────────────────────────────────────────────────────────

  /** Over all runs: each authorization code yields at most one token, and every token that
      a code yielded is justified by that code. */
  lemma OneTokenPerCode(cfg: Config, steps: seq<Step>)
    requires Run(cfg, INIT, steps).Some?
    ensures var s := Run(cfg, INIT, steps).value;
      && (forall j, k :: 0 <= j < k < |s.grants| && s.grants[j].attempt.Some? && s.grants[k].attempt.Some? ==>
            s.grants[j].attempt.value.code != s.grants[k].attempt.value.code)
      && (forall k :: 0 <= k < |s.grants| && s.grants[k].attempt.Some? ==> Justified(cfg, s, s.grants[k]))
  {
    hide Run, TokensKept, TokensGranted, CodesOnce;
    Reachable(cfg, steps);
  }

  /** Forgetting expired tokens is invisible: a token is accepted exactly when it would be
      had no token ever been forgotten. */
  lemma CleanupIsInvisible(cfg: Config, steps: seq<Step>, token: string, now: nat)
    requires Run(cfg, INIT, steps).Some? && Run(cfg, INIT, steps).value.clock <= now
    ensures var s := Run(cfg, INIT, steps).value;
      Accepts(s.tokens, token, now) <==> Accepts(s.everTokens, token, now)
  {
    hide Run, TokensGranted, CodesOnce, GrantsOnce;
    Reachable(cfg, steps);
  }

  /** A token is accepted exactly while a grant of it is younger than the lifetime of
      tokens. */
  lemma AcceptedIff(cfg: Config, steps: seq<Step>, token: string, now: nat)
    requires Run(cfg, INIT, steps).Some? && Run(cfg, INIT, steps).value.clock <= now
    ensures var s := Run(cfg, INIT, steps).value;
      Accepts(s.tokens, token, now) <==>
      exists k :: 0 <= k < |s.grants| && s.grants[k].token == token && now < s.grants[k].at + cfg.tokenExpiry
  {
    hide Run, TokensKept, CodesOnce, GrantsOnce;
    Reachable(cfg, steps);
    CleanupIsInvisible(cfg, steps, token, now);
    var s := Run(cfg, INIT, steps).value;
    assert forall k :: 0 <= k < |s.grants| ==> TokensOf(s.grants)[k] == s.grants[k].token;
  }

  /** The grants that the code yielded. */
  function GrantsFor(grants: seq<Grant>, code: string): seq<Grant> {
    if grants == [] then []
    else
      var n := |grants| - 1;
      GrantsFor(grants[..n], code)
        + if grants[n].attempt.Some? && grants[n].attempt.value.code == code then [grants[n]] else []
  }

  /** The code was taken out and is in nobody's hands. */
  ghost predicate Finished(s: State, code: string) {
    code in s.spent && forall r :: r in s.attempts ==> s.attempts[r].code != code
  }

  lemma GrantsForAppend(grants: seq<Grant>, g: Grant, code: string)
    requires g.attempt.None? || g.attempt.value.code != code
    ensures GrantsFor(grants + [g], code) == GrantsFor(grants, code)
  {
    assert (grants + [g])[..|grants|] == grants;
  }

  lemma FinishedIssue(cfg: Config, s: State, client: string, token: string, attempt: Option<Attempt>,
                      now: nat, later: nat, code: string)
    requires Finished(s, code) && (attempt.None? || attempt.value.code != code)
    ensures var t := Issue(cfg, s, client, token, attempt, now, later);
      Finished(t, code) && GrantsFor(t.grants, code) == GrantsFor(s.grants, code)
  {
    hide GrantsFor, LiveTokens;
    GrantsForAppend(s.grants, Grant(token, client, later, attempt), code);
  }

  lemma FinishedStep(cfg: Config, s: State, step: Step, code: string)
    requires CodesOnce(s) && Enabled(cfg, s, step) && Finished(s, code)
    ensures var t := Apply(cfg, s, step);
      Finished(t, code) && GrantsFor(t.grants, code) == GrantsFor(s.grants, code)
  {
    hide GrantsFor, QueryProblem, AttemptProblem, VerifyClient, Issue, LiveCodes;
    match step
    case Conclude(r, token, now, later) =>
      var a := s.attempts[r];
      FinishedIssue(cfg, s.(attempts := s.attempts - {r}, clock := later), a.client, token, Some(a), now, later, code);
    case Credentials(client, secret, token, now, later) =>
      FinishedIssue(cfg, s, client, token, None, now, later, code);
    case _ =>
  }

  lemma InvCodes(cfg: Config, s: State)
    requires Inv(cfg, s)
    ensures CodesOnce(s)
  {
  }

  /** Over all runs: once an attempt at a code is over, whatever came of it, the code never
      yields a token again. */
  lemma {:induction false} SpentForGood(cfg: Config, s: State, steps: seq<Step>, code: string)
    requires Inv(cfg, s) && Run(cfg, s, steps).Some? && Finished(s, code)
    ensures GrantsFor(Run(cfg, s, steps).value.grants, code) == GrantsFor(s.grants, code)
    decreases |steps|
  {
    hide Apply, Inv, Finished, GrantsFor;
    if steps == [] {
    } else {
      InvCodes(cfg, s);
      FinishedStep(cfg, s, steps[0], code);
      StepKeeps(cfg, s, steps[0]);
      SpentForGood(cfg, Apply(cfg, s, steps[0]), steps[1..], code);
    }
  }

  /** Over all runs: a code that no attempt has taken out is missing while an attempt would
      still be in time only at the very instant at which it expires. */
  lemma CodeCleanupShows(cfg: Config, steps: seq<Step>, code: string, judged: nat)
    requires Run(cfg, INIT, steps).Some?
    requires var s := Run(cfg, INIT, steps).value;
      code in s.everCodes && code !in s.spent && s.clock <= judged <= s.everCodes[code].expires
    ensures var s := Run(cfg, INIT, steps).value;
      code !in s.codes ==> s.clock == judged == s.everCodes[code].expires
  {
    hide Run, TokensKept, TokensGranted, CodesOnce, GrantsOnce;
    Reachable(cfg, steps);
  }

  /** And there it may be missing: any code issued at any time is forgotten if another one
      is issued at the instant at which it expires. */
  lemma ForgottenInTime(cfg: Config, q: Query, code: string, other: string, at: nat) returns (steps: seq<Step>)
    requires QueryProblem(cfg, map[], q).None? && code != other
    ensures Run(cfg, INIT, steps).Some?
    ensures var s := Run(cfg, INIT, steps).value;
      && code in s.everCodes && code !in s.spent && code !in s.codes
      && s.clock == s.everCodes[code].expires == at + CODE_LIFETIME
  {
    hide Run, Apply, QueryProblem;
    var first := Authorize(q, code, at, at);
    var second := Authorize(q, other, at + CODE_LIFETIME, at + CODE_LIFETIME);
    var s := FirstIssued(cfg, q, code, at);
    SecondForgets(cfg, s, q, code, other, at);
    RunOne(cfg, INIT, first, [second] + []);
    RunOne(cfg, s, second, []);
    RunNone(cfg, Apply(cfg, s, second));
    steps := [first] + ([second] + []);
  }

  lemma RunOne(cfg: Config, s: State, step: Step, steps: seq<Step>)
    requires Enabled(cfg, s, step)
    ensures Run(cfg, s, [step] + steps) == Run(cfg, Apply(cfg, s, step), steps)
  {
    hide Apply;
    assert ([step] + steps)[1..] == steps;
  }

  lemma RunNone(cfg: Config, s: State)
    ensures Run(cfg, s, []) == Some(s)
  {
  }

  lemma FirstIssued(cfg: Config, q: Query, code: string, at: nat) returns (s: State)
    requires QueryProblem(cfg, map[], q).None?
    ensures Enabled(cfg, INIT, Authorize(q, code, at, at)) && s == Apply(cfg, INIT, Authorize(q, code, at, at))
    ensures s.codes == s.everCodes && s.everCodes.Keys == {code} && s.everCodes[code].expires == at + CODE_LIFETIME
    ensures s.clock == at && s.spent == {} && s.clients == map[]
  {
    s := AuthorizeStep(cfg, INIT, q, code, at, at);
  }

  lemma SecondForgets(cfg: Config, s: State, q: Query, code: string, other: string, at: nat)
    requires QueryProblem(cfg, map[], q).None? && code != other
    requires s.codes == s.everCodes && s.everCodes.Keys == {code} && s.everCodes[code].expires == at + CODE_LIFETIME
    requires s.clock == at && s.spent == {} && s.clients == map[]
    ensures var second := Authorize(q, other, at + CODE_LIFETIME, at + CODE_LIFETIME);
      && Enabled(cfg, s, second)
      && var t := Apply(cfg, s, second);
        && code in t.everCodes && code !in t.spent && code !in t.codes
        && t.clock == t.everCodes[code].expires == at + CODE_LIFETIME
  {
  }

  // ── The handler ───────────────────────────────────────────────────────

  datatype Reply = Redirect(location: string) | TokenReply(token: string) | Registered(id: string, secret: string)

  /** The token of an Authorization header. */
  function BearerToken(header: string): Option<string> {
    if |header| >= 7 && (header[..7] == "Bearer " || header[..7] == "bearer ") then Some(header[7..]) else None
  }

  class OAuth2Handler {
    const cfg: Config
    var tokens: map<string, Token>
    var codes: map<string, Code>
    var clients: map<string, string>
    ghost var everTokens: map<string, Token>
    ghost var everCodes: map<string, Code>
    ghost var spent: set<string>
    ghost var grants: seq<Grant>
    ghost var clock: nat

    /** Between calls no attempt is under way. */
    ghost function View(): State
      reads this
    {
      State(tokens, codes, clients, map[], everTokens, everCodes, spent, grants, clock)
    }

    ghost predicate Valid()
      reads this
    {
      Inv(cfg, View())
    }

    constructor (cfg: Config)
      ensures this.cfg == cfg && View() == INIT && Valid()
    {
      this.cfg := cfg;
      tokens, codes, clients := map[], map[], map[];
      everTokens, everCodes, spent, grants, clock := map[], map[], {}, [], 0;
    }

    /** `id` and `secret` are the random values drawn; an empty list of redirections is
        refused. */
    method HandleRegister(redirects: seq<string>, id: string, secret: string) returns (r: Result<Reply, Problem>)
      requires Valid() && Enabled(cfg, View(), Register(id, secret))
      modifies this`clients
      ensures Valid()
      ensures r == if redirects == [] then Err(MissingRedirect) else Ok(Registered(id, secret))
      ensures View() == if r.Ok? then Apply(cfg, old(View()), Register(id, secret)) else old(View())
    {
      hide Inv;
      if redirects == [] {
        return Err(MissingRedirect);
      }
      RegisterKeeps(cfg, View(), id, secret);
      clients := clients[id := secret];
      r := Ok(Registered(id, secret));
    }

    method HandleAuthorize(q: Query, code: string, now: nat, later: nat) returns (r: Result<Reply, Problem>)
      requires Valid() && Enabled(cfg, View(), Authorize(q, code, now, later))
      modifies this`codes, this`everCodes, this`clock
      ensures Valid() && View() == AuthorizeStep(cfg, old(View()), q, code, now, later)
      ensures match QueryProblem(cfg, clients, q)
        case Some(p) => r == Err(p)
        case None =>
          r == Ok(Redirect(q.redirect.value + (if '?' in q.redirect.value then "&" else "?") + "code=" + code
                             + if q.state.Some? then "&state=" + q.state.value else ""))
    {
      hide Inv, LiveCodes;
      AuthorizeKeeps(cfg, View(), q, code, now, later);
      clock := later;
      if q.clientId.None? {
        return Err(MissingClientId);
      }
      if q.redirect.None? {
        return Err(MissingRedirect);
      }
      if q.responseType != Some("code") {
        return Err(UnsupportedResponseType);
      }
      if q.clientId.value != cfg.clientId && q.clientId.value !in clients {
        return Err(UnknownClient);
      }
      if q.challenge.Some? && (q.challengeMethod.None? || q.challengeMethod.value != "S256") {
        return Err(UnsupportedChallenge);
      }
      var stored := Code(q.clientId.value, q.redirect.value, q.challenge, q.challengeMethod, later + CODE_LIFETIME);
      codes := LiveCodes(codes, now)[code := stored];
      everCodes := everCodes[code := stored];
      var location := q.redirect.value + (if '?' in q.redirect.value then "&" else "?") + "code=" + code;
      r := Ok(Redirect(location + if q.state.Some? then "&state=" + q.state.value else ""));
    }

    method IssueToken(client: string, token: string, ghost attempt: Option<Attempt>,
                      now: nat, later: nat)
      modifies this`tokens, this`everTokens, this`grants, this`clock
      ensures View() == Issue(cfg, old(View()), client, token, attempt, now, later)
    {
      var stored := Token(client, later + cfg.tokenExpiry);
      tokens := LiveTokens(tokens, now)[token := stored];
      everTokens := everTokens[token := stored];
      grants := grants + [Grant(token, client, later, attempt)];
      clock := later;
    }

    /** `code` is None when the request names none. A code that is there is gone
        afterwards if the client is who it says it is, whatever comes of the attempt. */
    method HandleAuthorizationCode(code: Option<string>, client: string, secret: string, redirect: Option<string>,
                                   verifier: Option<string>, token: string, judged: nat, now: nat, later: nat)
      returns (r: Result<Reply, Problem>)
      requires Valid() && token !in everTokens && clock <= judged <= now <= later
      modifies this`tokens, this`codes, this`everTokens, this`spent, this`grants, this`clock
      ensures Valid()
      ensures code.None? ==> r == Err(MissingCode) && View() == old(View())
      ensures code.Some? && !VerifyClient(cfg, clients, client, secret) ==>
        r == Err(InvalidClient) && View() == old(View())
      ensures code.Some? && VerifyClient(cfg, clients, client, secret) && code.value !in old(codes) ==>
        r == Err(UnknownCode) && View() == old(View())
      ensures code.Some? && VerifyClient(cfg, clients, client, secret) && code.value in old(codes) ==>
        var a := Attempt(code.value, old(codes)[code.value], client, redirect, verifier, Some(judged));
        var taken := TakeStep(cfg, old(View()), 0, code.value, client, secret, redirect, verifier);
        && View() == ConcludeStep(cfg, JudgeStep(taken, 0, judged), 0, token, now, later)
        && codes == old(codes) - {code.value}
        && r == match AttemptProblem(cfg, a) case Some(p) => Err(p) case None => Ok(TokenReply(token))
    {
      hide Inv, Issue, VerifyClient;
      if code.None? {
        return Err(MissingCode);
      }
      if !VerifyClient(cfg, clients, client, secret) {
        return Err(InvalidClient);
      }
      if code.value !in codes {
        return Err(UnknownCode);
      }
      TakeKeeps(cfg, View(), 0, code.value, client, secret, redirect, verifier);
      ghost var taken := TakeStep(cfg, View(), 0, code.value, client, secret, redirect, verifier);
      JudgeKeeps(cfg, taken, 0, judged);
      ConcludeKeeps(cfg, JudgeStep(taken, 0, judged), 0, token, now, later);
      var stored := codes[code.value];
      ghost var a := Attempt(code.value, stored, client, redirect, verifier, Some(judged));
      ghost var none: map<nat, Attempt> := map[];
      assert none[0 := a.(judgedAt := None)][0 := a] - {0} == none;
      codes := codes - {code.value};
      spent := spent + {code.value};
      clock := later;
      var problem := Problems(stored, client, redirect, verifier, judged);
      if problem.Some? {
        return Err(problem.value);
      }
      IssueToken(client, token, Some(a), now, later);
      r := Ok(TokenReply(token));
    }

    /** The checks of an attempt, one by one. */
    method Problems(stored: Code, client: string, redirect: Option<string>, verifier: Option<string>, now: nat)
      returns (problem: Option<Problem>)
      ensures forall code: string ::
        problem == AttemptProblem(cfg, Attempt(code, stored, client, redirect, verifier, Some(now)))
    {
      if now > stored.expires {
        return Some(CodeExpired);
      }
      if stored.client != client {
        return Some(ClientMismatch);
      }
      if redirect.Some? && redirect.value != stored.redirect {
        return Some(RedirectMismatch);
      }
      if stored.challenge.Some? {
        if verifier.None? {
          return Some(MissingVerifier);
        }
        var challengeMethod := if stored.challengeMethod.Some? then stored.challengeMethod.value else "S256";
        if challengeMethod != "S256" {
          return Some(UnsupportedChallenge);
        }
        if cfg.s256(verifier.value) != stored.challenge.value {
          return Some(PkceFailed);
        }
      }
      problem := None;
    }

    method HandleClientCredentials(client: string, secret: string, token: string, now: nat, later: nat)
      returns (r: Result<Reply, Problem>)
      requires Valid() && token !in everTokens && clock <= now <= later
      modifies this`tokens, this`everTokens, this`grants, this`clock
      ensures Valid() && View() == CredentialsStep(cfg, old(View()), client, secret, token, now, later)
      ensures r == if VerifyClient(cfg, clients, client, secret) then Ok(TokenReply(token)) else Err(InvalidClient)
    {
      hide Inv, Issue, VerifyClient;
      StepKeeps(cfg, View(), Credentials(client, secret, token, now, later));
      if !VerifyClient(cfg, clients, client, secret) {
        clock := later;
        return Err(InvalidClient);
      }
      IssueToken(client, token, None, now, later);
      r := Ok(TokenReply(token));
    }

    /** A header is accepted exactly when it carries, as a bearer token, one that was issued
        and has not expired, whether or not cleanups ran in between. */
    method ValidateBearer(header: Option<string>, now: nat) returns (ok: bool)
      requires Valid() && clock <= now
      ensures ok <==>
        && header.Some? && BearerToken(header.value).Some?
        && Accepts(everTokens, BearerToken(header.value).value, now)
    {
      if header.None? || BearerToken(header.value).None? {
        return false;
      }
      var token := BearerToken(header.value).value;
      ok := token in tokens && now < tokens[token].expires;
    }
  }
}
