/** Who gets a code, who gets a token, and who does not. */
module OAuth2Access {
  import opened Wrappers
  import opened OAuth2

  /** The secret is the one configured or registered for the client. */
  predicate Opens(cfg: Config, clients: map<string, string>, client: string, secret: string) {
    || (client == cfg.clientId && secret == cfg.clientSecret)
    || (client in clients && secret == clients[client])
  }

  // ── One step ──────────────────────────────────────────────────────────

  /** Exactly who gets a token for credentials: whoever names the secret of the client. */
  lemma {:induction false} CredentialsIff(cfg: Config, s: State, client: string, secret: string, token: string,
                                          now: nat, later: nat)
    ensures var t := CredentialsStep(cfg, s, client, secret, token, now, later);
      if Opens(cfg, s.clients, client, secret) then
        && t.grants == s.grants + [Grant(token, client, later, None)]
        && token in t.tokens && t.tokens[token] == Token(client, later + cfg.tokenExpiry)
        && t.codes == s.codes && t.clients == s.clients
      else t == s.(clock := later)
  {
    hide LiveTokens;
  }

  /** A code is taken out, for good, exactly when it is there and the secret is the
      client's; otherwise nothing happens. */
  lemma {:induction false} TakenIff(cfg: Config, s: State, r: nat, code: string, client: string, secret: string,
                                    redirect: Option<string>, verifier: Option<string>)
    ensures var t := TakeStep(cfg, s, r, code, client, secret, redirect, verifier);
      if Opens(cfg, s.clients, client, secret) && code in s.codes then
        && t.codes == s.codes - {code} && code in t.spent
        && t.attempts == s.attempts[r := Attempt(code, s.codes[code], client, redirect, verifier, None)]
        && t.grants == s.grants && t.tokens == s.tokens && t.clients == s.clients
      else t == s
  {
  }

  /** What an attempt must be to succeed. */
  predicate Deserves(cfg: Config, a: Attempt) {
    && a.judgedAt.Some? && a.judgedAt.value <= a.stored.expires
    && a.client == a.stored.client
    && (a.redirect.None? || a.redirect.value == a.stored.redirect)
    && (a.stored.challenge.None? ||
        (&& a.verifier.Some? && cfg.s256(a.verifier.value) == a.stored.challenge.value
         && (a.stored.challengeMethod.None? || a.stored.challengeMethod.value == "S256")))
  }

  /** Exactly which attempts yield a token. */
  lemma {:induction false} GrantedIff(cfg: Config, s: State, r: nat, token: string, now: nat, later: nat)
    requires r in s.attempts && s.attempts[r].judgedAt.Some?
    ensures var t := ConcludeStep(cfg, s, r, token, now, later);
      var a := s.attempts[r];
      && t.attempts == s.attempts - {r} && t.codes == s.codes && t.clients == s.clients
      && if Deserves(cfg, a) then
           && t.grants == s.grants + [Grant(token, a.client, later, Some(a))]
           && token in t.tokens && t.tokens[token] == Token(a.client, later + cfg.tokenExpiry)
         else t.grants == s.grants && t.tokens == s.tokens
  {
    hide LiveTokens;
  }

  /** An attempt that is judged after its code has expired yields nothing, and one judged
      before is not refused for that. */
  lemma {:induction false} LateIsRefused(cfg: Config, s: State, r: nat, judged: nat, token: string,
                                         now: nat, later: nat)
    requires r in s.attempts
    ensures var u := JudgeStep(s, r, judged);
      && r in u.attempts && u.attempts[r] == s.attempts[r].(judgedAt := Some(judged))
      && (judged > s.attempts[r].stored.expires ==> ConcludeStep(cfg, u, r, token, now, later).grants == s.grants)
      && (judged <= s.attempts[r].stored.expires ==> AttemptProblem(cfg, u.attempts[r]) != Some(CodeExpired))
  {
    hide LiveTokens;
  }

  /** What is reported is the first thing wrong with the attempt. */
  lemma {:induction false} FirstProblem(cfg: Config, a: Attempt)
    requires a.judgedAt.Some?
    ensures var p, c := AttemptProblem(cfg, a), a.stored;
      && (p.None? <==> Deserves(cfg, a))
      && (p == Some(CodeExpired) <==> c.expires < a.judgedAt.value)
      && (p == Some(ClientMismatch) ==> c.client != a.client)
      && (p == Some(RedirectMismatch) ==>
            c.client == a.client && a.redirect.Some? && a.redirect.value != c.redirect)
      && (p == Some(MissingVerifier) ==>
            c.client == a.client && c.challenge.Some? && a.verifier.None?)
      && (p == Some(UnsupportedChallenge) ==>
            c.client == a.client && a.verifier.Some? && c.challengeMethod.Some? && c.challengeMethod.value != "S256")
      && (p == Some(PkceFailed) ==>
            && c.client == a.client && c.challenge.Some? && a.verifier.Some?
            && cfg.s256(a.verifier.value) != c.challenge.value)
      && (p.Some? ==> p.value in {CodeExpired, ClientMismatch, RedirectMismatch, MissingVerifier,
                                  UnsupportedChallenge, PkceFailed})
  {
  }

  /** What an authorization request must be. */
  predicate WellAsked(cfg: Config, clients: map<string, string>, q: Query) {
    && q.clientId.Some? && q.redirect.Some? && q.responseType == Some("code")
    && (q.clientId.value == cfg.clientId || q.clientId.value in clients)
    && (q.challenge.None? || q.challengeMethod == Some("S256"))
  }

  /** Exactly which authorization requests get a code, and what is remembered with it. */
  lemma {:induction false} AuthorizedIff(cfg: Config, s: State, q: Query, code: string, now: nat, later: nat)
    ensures var t := AuthorizeStep(cfg, s, q, code, now, later);
      && t.tokens == s.tokens && t.grants == s.grants && t.clients == s.clients && t.attempts == s.attempts
      && if WellAsked(cfg, s.clients, q) then
           code in t.codes && t.codes[code]
             == Code(q.clientId.value, q.redirect.value, q.challenge, q.challengeMethod, later + 600)
         else t == s.(clock := later)
  {
    hide LiveCodes;
  }

  /** What is reported is the first thing wrong with the request. */
  lemma {:induction false} FirstWrong(cfg: Config, clients: map<string, string>, q: Query)
    ensures var p := QueryProblem(cfg, clients, q);
      && (p.None? <==> WellAsked(cfg, clients, q))
      && (p == Some(MissingClientId) <==> q.clientId.None?)
      && (p == Some(MissingRedirect) <==> q.clientId.Some? && q.redirect.None?)
      && (p == Some(UnsupportedResponseType) <==>
            q.clientId.Some? && q.redirect.Some? && q.responseType != Some("code"))
      && (p == Some(UnknownClient) ==> q.clientId.value != cfg.clientId && q.clientId.value !in clients)
      && (p == Some(UnsupportedChallenge) ==> q.challenge.Some? && q.challengeMethod != Some("S256"))
      && (p.Some? ==> p.value in {MissingClientId, MissingRedirect, UnsupportedResponseType, UnknownClient,
                                  UnsupportedChallenge})
  {
  }

  /** Storing a code forgets the codes that have expired, and nothing else. */
  lemma {:induction false} ForgetsExpiredCodes(cfg: Config, s: State, q: Query, code: string,
                                               now: nat, later: nat, x: string)
    requires WellAsked(cfg, s.clients, q) && x != code
    ensures var t := AuthorizeStep(cfg, s, q, code, now, later);
      && (x in t.codes <==> x in s.codes && now < s.codes[x].expires)
      && (x in t.codes ==> t.codes[x] == s.codes[x])
  {
  }

  /** And likewise for tokens. */
  lemma {:induction false} ForgetsExpiredTokens(cfg: Config, s: State, client: string, secret: string, token: string,
                                                now: nat, later: nat, x: string)
    requires Opens(cfg, s.clients, client, secret) && x != token
    ensures var t := CredentialsStep(cfg, s, client, secret, token, now, later);
      && (x in t.tokens <==> x in s.tokens && now < s.tokens[x].expires)
      && (x in t.tokens ==> t.tokens[x] == s.tokens[x])
  {
  }

  // ── Secrets, over all runs ────────────────────────────────────────────

  /** The secrets registered in a run, by client. */
  function RegisteredIn(steps: seq<Step>): map<string, string> {
    if steps == [] then map[]
    else
      var n := |steps| - 1;
      var before := RegisteredIn(steps[..n]);
      if steps[n].Register? then before[steps[n].id := steps[n].secret] else before
  }

  /** In this step the client shows its secret. */
  predicate Shows(cfg: Config, clients: map<string, string>, step: Step, client: string) {
    match step
    case Credentials(c, secret, _, _, _) => c == client && Opens(cfg, clients, c, secret)
    case TakeCode(_, _, c, secret, _, _) => c == client && Opens(cfg, clients, c, secret)
    case _ => false
  }

  ghost predicate Shown(cfg: Config, clients: map<string, string>, past: seq<Step>, client: string) {
    exists q :: 0 <= q < |past| && Shows(cfg, clients, past[q], client)
  }

  ghost predicate Entitled(cfg: Config, s: State, past: seq<Step>) {
    && s.clients == RegisteredIn(past)
    && (forall r :: r in s.attempts ==> Shown(cfg, s.clients, past, s.attempts[r].client))
    && (forall k :: 0 <= k < |s.grants| ==> Shown(cfg, s.clients, past, s.grants[k].client))
  }

  lemma StillShown(cfg: Config, clients: map<string, string>, more: map<string, string>, past: seq<Step>, step: Step,
                   client: string)
    requires Shown(cfg, clients, past, client)
    requires forall c :: c in clients ==> c in more && more[c] == clients[c]
    ensures Shown(cfg, more, past + [step], client)
  {
    var q :| 0 <= q < |past| && Shows(cfg, clients, past[q], client);
    assert (past + [step])[q] == past[q];
    assert Shows(cfg, more, (past + [step])[q], client);
  }

  lemma NowShown(cfg: Config, clients: map<string, string>, past: seq<Step>, step: Step, client: string)
    requires Shows(cfg, clients, step, client)
    ensures Shown(cfg, clients, past + [step], client)
  {
    assert (past + [step])[|past|] == step;
  }

  lemma RegisteredNext(past: seq<Step>, step: Step)
    ensures RegisteredIn(past + [step])
            == if step.Register? then RegisteredIn(past)[step.id := step.secret] else RegisteredIn(past)
  {
    assert (past + [step])[..|past|] == past;
  }

  /** What a step does to clients, attempts and grants. */
  lemma StepGrants(cfg: Config, s: State, step: Step)
    requires Enabled(cfg, s, step)
    ensures var t := Apply(cfg, s, step);
      && t.clients == (if step.Register? then s.clients[step.id := step.secret] else s.clients)
      && (forall r :: r in t.attempts ==>
            || (r in s.attempts && t.attempts[r].client == s.attempts[r].client)
            || Shows(cfg, s.clients, step, t.attempts[r].client))
      && (|t.grants| == |s.grants| || |t.grants| == |s.grants| + 1) && s.grants <= t.grants
      && (|t.grants| > |s.grants| ==>
            var client := t.grants[|s.grants|].client;
            || Shows(cfg, s.clients, step, client)
            || exists r :: r in s.attempts && s.attempts[r].client == client)
  {
    hide LiveTokens, LiveCodes, QueryProblem, AttemptProblem, Shows, TakeStep, ConcludeStep, CredentialsStep;
    match step
    case TakeCode(r, code, client, secret, redirect, verifier) =>
      TakenIff(cfg, s, r, code, client, secret, redirect, verifier);
      ShowsSecret(cfg, s.clients, step);
    case Conclude(r, token, now, later) => GrantedIff(cfg, s, r, token, now, later);
    case Credentials(client, secret, token, now, later) =>
      CredentialsIff(cfg, s, client, secret, token, now, later);
      CredentialsLeave(cfg, s, client, secret, token, now, later);
      ShowsSecret(cfg, s.clients, step);
    case _ =>
  }

  lemma CredentialsLeave(cfg: Config, s: State, client: string, secret: string, token: string, now: nat, later: nat)
    ensures var t := CredentialsStep(cfg, s, client, secret, token, now, later);
      t.attempts == s.attempts && t.clients == s.clients
  {
    hide LiveTokens;
  }

  lemma ShowsSecret(cfg: Config, clients: map<string, string>, step: Step)
    requires step.TakeCode? || step.Credentials?
    ensures Opens(cfg, clients, step.client, step.secret) <==> Shows(cfg, clients, step, step.client)
  {
  }

  lemma StepEntitles(cfg: Config, s: State, past: seq<Step>, step: Step)
    requires Entitled(cfg, s, past) && Enabled(cfg, s, step)
    ensures Entitled(cfg, Apply(cfg, s, step), past + [step])
  {
    hide Apply, Shown, Shows, RegisteredIn;
    var t := Apply(cfg, s, step);
    StepGrants(cfg, s, step);
    RegisteredNext(past, step);
    FreshClient(cfg, s, step);
    forall client | Shown(cfg, s.clients, past, client) ensures Shown(cfg, t.clients, past + [step], client) {
      StillShown(cfg, s.clients, t.clients, past, step, client);
    }
    forall client | Shows(cfg, s.clients, step, client) ensures Shown(cfg, t.clients, past + [step], client) {
      ShowsKeeps(cfg, s, step, client);
      NowShown(cfg, s.clients, past, step, client);
    }
  }

  lemma FreshClient(cfg: Config, s: State, step: Step)
    requires Enabled(cfg, s, step)
    ensures step.Register? ==> step.id !in s.clients
  {
  }

  lemma ShowsKeeps(cfg: Config, s: State, step: Step, client: string)
    requires Shows(cfg, s.clients, step, client)
    ensures !step.Register?
  {
  }

  lemma {:induction false} RunEntitles(cfg: Config, s: State, past: seq<Step>, steps: seq<Step>)
    requires Entitled(cfg, s, past) && Run(cfg, s, steps).Some?
    ensures Entitled(cfg, Run(cfg, s, steps).value, past + steps)
    decreases |steps|
  {
    hide Apply, Entitled;
    if steps == [] {
      assert past + steps == past;
    } else {
      StepEntitles(cfg, s, past, steps[0]);
      RunEntitles(cfg, Apply(cfg, s, steps[0]), past + [steps[0]], steps[1..]);
      assert past + [steps[0]] + steps[1..] == past + steps;
    }
  }

  /** Over all runs: whoever was granted a token showed, in some step of the run, the secret
      that is configured for the client or was registered for it. */
  lemma GrantsNeedSecrets(cfg: Config, steps: seq<Step>, k: nat)
    requires Run(cfg, INIT, steps).Some? && k < |Run(cfg, INIT, steps).value.grants|
    ensures Shown(cfg, RegisteredIn(steps), steps, Run(cfg, INIT, steps).value.grants[k].client)
  {
    hide Run, Shown, RegisteredIn;
    NobodyYet(cfg);
    RunEntitles(cfg, INIT, [], steps);
    assert [] + steps == steps;
  }

  lemma NobodyYet(cfg: Config)
    ensures Entitled(cfg, INIT, [])
  {
  }

  // ── A flow that succeeds ──────────────────────────────────────────────

  /** From any state: a client that asks for a code as it should, and redeems it in time with
      its secret, the redirection and the verifier of its challenge, gets a token that is
      accepted for as long as tokens live. */
  lemma FlowSucceeds(cfg: Config, s: State, q: Query, secret: string, verifier: string, code: string, token: string,
                     r: nat, asked: nat, judged: nat, issued: nat)
    requires WellAsked(cfg, s.clients, q) && Opens(cfg, s.clients, q.clientId.value, secret)
    requires q.challenge.None? || q.challenge == Some(cfg.s256(verifier))
    requires code !in s.everCodes && r !in s.attempts && token !in s.everTokens
    requires s.clock <= asked <= judged <= asked + 600 && judged <= issued
    ensures var steps := [Authorize(q, code, asked, asked)]
                         + ([TakeCode(r, code, q.clientId.value, secret, q.redirect, Some(verifier))]
                            + ([Judge(r, judged)] + ([Conclude(r, token, issued, issued)] + [])));
      && Run(cfg, s, steps).Some?
      && var t := Run(cfg, s, steps).value;
         && |t.grants| == |s.grants| + 1 && t.grants[|s.grants|].token == token
         && t.grants[|s.grants|].client == q.clientId.value
         && forall now: nat :: Accepts(t.tokens, token, now) <==> now < issued + cfg.tokenExpiry
  {
    hide Run, LiveCodes, LiveTokens, AuthorizeStep, TakeStep, ConcludeStep, QueryProblem, VerifyClient;
    var ask, take := Authorize(q, code, asked, asked),
                     TakeCode(r, code, q.clientId.value, secret, q.redirect, Some(verifier));
    var judge, conclude := Judge(r, judged), Conclude(r, token, issued, issued);
    AuthorizedIff(cfg, s, q, code, asked, asked);
    AuthorizeClock(cfg, s, q, code, asked);
    var s1 := Apply(cfg, s, ask);
    TakenIff(cfg, s1, r, code, q.clientId.value, secret, q.redirect, Some(verifier));
    TakeClock(cfg, s1, take);
    var s2 := Apply(cfg, s1, take);
    var s3 := Apply(cfg, s2, judge);
    GrantedIff(cfg, s3, r, token, issued, issued);
    var s4 := Apply(cfg, s3, conclude);
    RunOne(cfg, s, ask, [take] + ([judge] + ([conclude] + [])));
    RunOne(cfg, s1, take, [judge] + ([conclude] + []));
    RunOne(cfg, s2, judge, [conclude] + []);
    RunOne(cfg, s3, conclude, []);
    RunNone(cfg, s4);
  }

  lemma AuthorizeClock(cfg: Config, s: State, q: Query, code: string, now: nat)
    ensures var t := AuthorizeStep(cfg, s, q, code, now, now);
      t.clock == now && t.everTokens == s.everTokens
  {
    hide LiveCodes;
  }

  lemma TakeClock(cfg: Config, s: State, step: Step)
    requires step.TakeCode? && Enabled(cfg, s, step)
    ensures Apply(cfg, s, step).clock == s.clock && Apply(cfg, s, step).everTokens == s.everTokens
  {
  }

  /** A header carries a token exactly behind one of two prefixes. */
  lemma {:induction false} BearerIff(header: string, token: string)
    ensures BearerToken(header) == Some(token) <==> header == "Bearer " + token || header == "bearer " + token
  {
    if BearerToken(header) == Some(token) {
      assert header == header[..7] + header[7..];
    }
    assert ("Bearer " + token)[..7] == "Bearer " && ("Bearer " + token)[7..] == token;
    assert ("bearer " + token)[..7] == "bearer " && ("bearer " + token)[7..] == token;
  }
}
