/** The protocol client's session: granted scopes, the upgrade after a 401 and its single retry. */
module McpSession {
  import opened Wrappers
  import opened McpScopes
  import opened Order

  datatype AuthState = AuthState(token: Option<string>, scopes: seq<string>)

  const NO_STATE := AuthState(None, [])

  /** Where tokens come from without a network: one token for everything, or a token per scope. */
  datatype TokenSource = TokenSource(fixed: Option<string>, perScope: map<string, string>)

  ghost predicate Distinct(xs: seq<string>) {
    forall i, j :: 0 <= i < j < |xs| ==> xs[i] != xs[j]
  }

  /** The list without repeats, first places kept. */
  function Dedupe(xs: seq<string>): (ys: seq<string>)
    ensures Elements(ys) == Elements(xs) && Distinct(ys)
  {
    if xs == [] then []
    else
      var init, last := xs[..|xs| - 1], xs[|xs| - 1];
      var ys := Dedupe(init);
      assert xs == init + [last];
      assert Elements(xs) == Elements(init) + {last};
      if last in ys then
        assert last in Elements(init);
        ys
      else
        assert Elements(ys + [last]) == Elements(ys) + {last};
        ys + [last]
  }

  // ------------------------------------------------------------------ the token source

  /** The last scope that has a token decides. */
  function AcquireToken(source: TokenSource, scopes: seq<string>): Option<AuthState> {
    if source.fixed.Some? then Some(AuthState(source.fixed, scopes))
    else
      match LastWithToken(source, scopes)
      case None => None
      case Some(scope) => Some(AuthState(Some(source.perScope[scope]), scopes))
  }

  function LastWithToken(source: TokenSource, scopes: seq<string>): (r: Option<string>)
    ensures r.Some? ==> exists i :: 0 <= i < |scopes| && scopes[i] == r.value && r.value in source.perScope &&
                                    forall j :: i < j < |scopes| ==> scopes[j] !in source.perScope
    ensures r.None? <==> forall s :: s in scopes ==> s !in source.perScope
  {
    if scopes == [] then None
    else
      var last := scopes[|scopes| - 1];
      assert scopes == scopes[..|scopes| - 1] + [last];
      if last in source.perScope then Some(last) else LastWithToken(source, scopes[..|scopes| - 1])
  }

  function HandleChallenge(source: TokenSource, challenge: string, state: AuthState): Option<AuthState> {
    var parsed := ParseChallenge(challenge);
    if "scope" in parsed && parsed["scope"] != "" then
      var merged := Dedupe(state.scopes + Words(parsed["scope"]));
      if merged != state.scopes then AcquireToken(source, merged) else Some(state)
    else Some(state)
  }

  // ------------------------------------------------------------------ the server

  datatype Server = Server(tools: set<string>, extraScopes: map<string, seq<string>>)
  {
    function Required(tool: string): seq<string> {
      if tool in extraScopes then extraScopes[tool] else []
    }
  }

  datatype Response = Unauthorized(challenge: string) | Answer | UnknownTool

  function Missing(required: seq<string>, granted: seq<string>): (missing: seq<string>)
    ensures forall s :: s in missing <==> s in required && s !in granted
  {
    if required == [] then []
    else
      var rest := Missing(required[1..], granted);
      assert required == [required[0]] + required[1..];
      if required[0] in granted then rest else [required[0]] + rest
  }

  function SendCall(server: Server, granted: seq<string>, tool: string): Response {
    var missing := Missing(server.Required(tool), granted);
    if missing != [] then Unauthorized(Challenge(missing))
    else if tool in server.tools then Answer
    else UnknownTool
  }

  // ------------------------------------------------------------------ one request

  /** What the client and the transport handle know: session state, and the handle's scopes and token. */
  datatype Link = Link(auth: Option<AuthState>, scopes: Option<seq<string>>, token: Option<string>)
  {
    function State(): AuthState {
      if auth.Some? then auth.value else NO_STATE
    }

    function Granted(): seq<string> {
      if scopes.Some? then scopes.value else []
    }
  }

  function Upgraded(state: AuthState): Link {
    Link(Some(state), Some(state.scopes), Some(if state.token.Some? then state.token.value else ""))
  }

  datatype Outcome = Ran | NoSuchTool | RefusedAgain | NoAuthorization | NoToken

  function OutcomeOf(response: Response): Outcome {
    match response
    case Unauthorized(_) => RefusedAgain
    case Answer => Ran
    case UnknownTool => NoSuchTool
  }

  function Request(server: Server, source: Option<TokenSource>, link: Link, tool: string): (Outcome, Link) {
    var first := SendCall(server, link.Granted(), tool);
    if !first.Unauthorized? then (OutcomeOf(first), link)
    else if source.None? then (NoAuthorization, link)
    else
      match HandleChallenge(source.value, first.challenge, link.State())
      case None => (NoToken, link)
      case Some(state) => (OutcomeOf(SendCall(server, state.scopes, tool)), Upgraded(state))
  }

  /** A new initialize on a handle forgets the session state and keeps what the handle holds. */
  function Reinitialized(link: Link): Link {
    link.(auth := None)
  }

  // ------------------------------------------------------------------ the client's objects

  class McpTransportHandle {
    var scopes: Option<seq<string>>
    var token: Option<string>

    constructor ()
      ensures scopes == None && token == None
    {
      scopes, token := None, None;
    }
  }

  class ConnectedSession {
    var authState: Option<AuthState>
    const handle: McpTransportHandle

    constructor (handle: McpTransportHandle)
      ensures this.handle == handle && authState == None
    {
      this.handle := handle;
      authState := None;
    }

    ghost function LinkOf(): Link
      reads this, handle
    {
      Link(authState, handle.scopes, handle.token)
    }
  }

  method AcquireTokenFor(source: TokenSource, scopes: seq<string>) returns (state: Option<AuthState>)
    ensures state == AcquireToken(source, scopes)
  {
    if source.fixed.Some? {
      return Some(AuthState(source.fixed, scopes));
    }
    var i := |scopes|;
    assert scopes[..i] == scopes;
    while i > 0
      invariant 0 <= i <= |scopes|
      invariant LastWithToken(source, scopes[..i]) == LastWithToken(source, scopes)
    {
      assert scopes[..i][..i - 1] == scopes[..i - 1];
      i := i - 1;
      if scopes[i] in source.perScope {
        return Some(AuthState(Some(source.perScope[scopes[i]]), scopes));
      }
    }
    return None;
  }

  method RequestTool(server: Server, source: Option<TokenSource>, connected: ConnectedSession,
      tool: string) returns (outcome: Outcome)
    modifies connected, connected.handle
    ensures (outcome, connected.LinkOf()) == Request(server, source, old(connected.LinkOf()), tool)
  {
    var granted := if connected.handle.scopes.Some? then connected.handle.scopes.value else [];
    var response := SendCall(server, granted, tool);
    if !response.Unauthorized? {
      return OutcomeOf(response);
    }
    if source.None? {
      return NoAuthorization;
    }
    var parsed := ParseWwwAuthenticate(response.challenge);
    var state := if connected.authState.Some? then connected.authState.value else NO_STATE;
    if "scope" in parsed && parsed["scope"] != "" {
      var merged := Dedupe(state.scopes + Words(parsed["scope"]));
      if merged != state.scopes {
        var token := AcquireTokenFor(source.value, merged);
        if token.None? {
          return NoToken;
        }
        state := token.value;
      }
    }
    connected.authState := Some(state);
    connected.handle.token := Some(if state.token.Some? then state.token.value else "");
    connected.handle.scopes := Some(state.scopes);
    var retry := SendCall(server, state.scopes, tool);
    return OutcomeOf(retry);
  }

  // ------------------------------------------------------------------ what an upgrade grants

  lemma {:induction false} WordsOfNothing()
    ensures Words("") == []
  {}

  /** An upgrade keeps every scope of the session and adds exactly what the challenge asks for. */
  lemma {:induction false} UpgradeGrants(source: TokenSource, challenge: string, state: AuthState)
    requires HandleChallenge(source, challenge, state).Some?
    ensures Elements(HandleChallenge(source, challenge, state).value.scopes) ==
            Elements(state.scopes) + Elements(Requested(challenge))
  {
    WordsOfNothing();
    var parsed := ParseChallenge(challenge);
    if "scope" in parsed {
      ElementsConcat(state.scopes, Words(parsed["scope"]));
    }
  }

  /** The token of an upgrade: the session's own while no scope is new, else the fixed one, else that of the last scope
      that has one. The handle gets it, or an empty one. */
  lemma {:induction false} UpgradeToken(source: TokenSource, challenge: string, state: AuthState)
    requires HandleChallenge(source, challenge, state).Some?
    ensures var next := HandleChallenge(source, challenge, state).value;
            && Upgraded(next).token == (if next.token.Some? then next.token else Some(""))
            && Upgraded(next).scopes == Some(next.scopes) && Upgraded(next).auth == Some(next)
            && (next.scopes == state.scopes ==> next == state)
            && (next.scopes != state.scopes && source.fixed.Some? ==> next.token == source.fixed)
            && (next.scopes != state.scopes && source.fixed.None? ==>
                  exists i :: 0 <= i < |next.scopes| && next.scopes[i] in source.perScope &&
                    next.token == Some(source.perScope[next.scopes[i]]) &&
                    forall j :: i < j < |next.scopes| ==> next.scopes[j] !in source.perScope)
  {
    hide Dedupe, ParseChallenge, Words;
  }

  lemma {:induction false} DedupeKeepsPrefix(xs: seq<string>, ys: seq<string>)
    requires Distinct(xs)
    ensures xs <= Dedupe(xs + ys)
  {
    if ys != [] {
      DedupeKeepsPrefix(xs, ys[..|ys| - 1]);
      assert (xs + ys)[..|xs + ys| - 1] == xs + ys[..|ys| - 1];
    } else if xs != [] {
      assert xs + ys == xs;
      var init := xs[..|xs| - 1];
      DedupeKeepsPrefix(init, []);
      assert init + [] == init;
      DedupeDistinct(xs);
    }
  }

  lemma {:induction false} DedupeDistinct(xs: seq<string>)
    requires Distinct(xs)
    ensures Dedupe(xs) == xs
  {
    if xs != [] {
      var init, last := xs[..|xs| - 1], xs[|xs| - 1];
      DedupeDistinct(init);
      assert last !in init;
      assert xs == init + [last];
    }
  }

  /** An upgrade leaves a session's scopes in place, in order, at the front. */
  lemma {:induction false} UpgradeGrows(source: TokenSource, challenge: string, state: AuthState)
    requires HandleChallenge(source, challenge, state).Some? && Distinct(state.scopes)
    ensures var scopes := HandleChallenge(source, challenge, state).value.scopes;
            state.scopes <= scopes && Distinct(scopes)
  {
    var parsed := ParseChallenge(challenge);
    if "scope" in parsed && parsed["scope"] != "" {
      DedupeKeepsPrefix(state.scopes, Words(parsed["scope"]));
    }
  }

  // ------------------------------------------------------------------ runs

  /** Session and handle hold the same scopes and token, or neither holds any. */
  ghost predicate Agree(link: Link) {
    if link.auth.Some? then link == Upgraded(link.auth.value) && Distinct(link.auth.value.scopes)
    else link.scopes.None? && link.token.None?
  }

  datatype Op = Op(tool: string, source: Option<TokenSource>)

  function RunOps(server: Server, link: Link, ops: seq<Op>): Link
    decreases |ops|
  {
    if ops == [] then link else RunOps(server, Request(server, ops[0].source, link, ops[0].tool).1, ops[1..])
  }

  lemma {:induction false} RequestAgrees(server: Server, source: Option<TokenSource>, link: Link, tool: string)
    requires Agree(link)
    ensures var after := Request(server, source, link, tool).1; Agree(after) && link.Granted() <= after.Granted()
  {
    var first := SendCall(server, link.Granted(), tool);
    if first.Unauthorized? && source.Some? && HandleChallenge(source.value, first.challenge, link.State()).Some? {
      UpgradeGrows(source.value, first.challenge, link.State());
    }
  }

  /** With one initialize per handle, over every history of calls: session and handle agree, and granted scopes
      only grow at the end. */
  lemma {:induction false} RunAgrees(server: Server, link: Link, ops: seq<Op>)
    requires Agree(link)
    ensures Agree(RunOps(server, link, ops)) && link.Granted() <= RunOps(server, link, ops).Granted()
    decreases |ops|
  {
    if ops != [] {
      var next := Request(server, ops[0].source, link, ops[0].tool).1;
      RequestAgrees(server, ops[0].source, link, ops[0].tool);
      RunAgrees(server, next, ops[1..]);
    }
  }

  lemma {:induction false} MissingShrinks(required: seq<string>, fewer: seq<string>, more: seq<string>)
    requires fewer <= more
    ensures Missing(required, fewer) == [] ==> Missing(required, more) == []
  {
    assert forall s :: s in fewer ==> s in more;
    var left := Missing(required, more);
    assert left != [] ==> left[0] in Missing(required, fewer);
  }

  /** A call is refused if and only if it lacks a scope its tool requires; else an unknown tool is an error of its
      own. */
  lemma {:induction false} CallAnswers(server: Server, granted: seq<string>, tool: string)
    ensures SendCall(server, granted, tool).Unauthorized? <==>
            exists s :: s in server.Required(tool) && s !in granted
    ensures SendCall(server, granted, tool).UnknownTool? <==>
            tool !in server.tools && forall s :: s in server.Required(tool) ==> s in granted
  {
    var missing := Missing(server.Required(tool), granted);
    assert missing != [] ==> missing[0] in missing;
  }

  /** There is no token exactly when none is fixed and no scope has one. */
  lemma {:induction false} NoTokenIff(source: TokenSource, scopes: seq<string>)
    ensures AcquireToken(source, scopes).None? <==>
            source.fixed.None? && forall s :: s in scopes ==> s !in source.perScope
    ensures AcquireToken(source, scopes).Some? ==> AcquireToken(source, scopes).value.scopes == scopes
  {}

  lemma {:induction false} RunOpsConcat(server: Server, link: Link, a: seq<Op>, b: seq<Op>)
    ensures RunOps(server, link, a + b) == RunOps(server, RunOps(server, link, a), b)
    decreases |a|
  {
    hide Request;
    if a == [] {
      assert a + b == b;
    } else {
      assert (a + b)[0] == a[0] && (a + b)[1..] == a[1..] + b;
      RunOpsConcat(server, Request(server, a[0].source, link, a[0].tool).1, a[1..], b);
    }
  }

  lemma {:induction false} RanIsGranted(server: Server, source: Option<TokenSource>, link: Link, tool: string)
    requires Request(server, source, link, tool).0 == Ran
    ensures !SendCall(server, Request(server, source, link, tool).1.Granted(), tool).Unauthorized?
  {
    hide SendCall, HandleChallenge;
  }

  /** A tool that ran once in a history needs no challenge after it. */
  lemma {:induction false} RanOnceStays(server: Server, link: Link, before: seq<Op>, call: Op, after: seq<Op>)
    requires Agree(link) && Request(server, call.source, RunOps(server, link, before), call.tool).0 == Ran
    ensures !SendCall(server, RunOps(server, link, before + [call] + after).Granted(), call.tool).Unauthorized?
  {
    hide Request, SendCall, Agree;
    RunOpsConcat(server, link, before + [call], after);
    RunOpsConcat(server, link, before, [call]);
    RunAgrees(server, link, before + [call]);
    var mid := RunOps(server, link, before);
    RanIsGranted(server, call.source, mid, call.tool);
    assert [call][1..] == [];
    assert RunOps(server, mid, [call]) == Request(server, call.source, mid, call.tool).1;
    GrantStays(server, RunOps(server, link, before + [call]), after, call.tool);
  }

  /** A tool that needs no challenge now never needs one again in a history. */
  lemma {:induction false} GrantStays(server: Server, link: Link, ops: seq<Op>, tool: string)
    requires Agree(link) && !SendCall(server, link.Granted(), tool).Unauthorized?
    ensures !SendCall(server, RunOps(server, link, ops).Granted(), tool).Unauthorized?
  {
    RunAgrees(server, link, ops);
    var required, after := server.Required(tool), RunOps(server, link, ops).Granted();
    MissingShrinks(required, link.Granted(), after);
  }

  /** The session holds nothing the handle does not. */
  ghost predicate Held(link: Link) {
    Elements(link.State().scopes) <= Elements(link.Granted())
  }

  const NEW_LINK := Link(None, None, None)

  /** What can happen to a handle: a call, or another initialize. */
  datatype LinkOp = Call(op: Op) | Initialize

  function StepLink(server: Server, link: Link, op: LinkOp): Link {
    match op
    case Call(o) => Request(server, o.source, link, o.tool).1
    case Initialize => Reinitialized(link)
  }

  function RunLink(server: Server, link: Link, ops: seq<LinkOp>): Link
    decreases |ops|
  {
    if ops == [] then link else RunLink(server, StepLink(server, link, ops[0]), ops[1..])
  }

  lemma {:induction false} HeldStays(server: Server, link: Link, ops: seq<LinkOp>)
    requires Held(link)
    ensures Held(RunLink(server, link, ops))
    decreases |ops|
  {
    hide SendCall, HandleChallenge;
    if ops != [] {
      HeldStays(server, StepLink(server, link, ops[0]), ops[1..]);
    }
  }

  lemma {:induction false} MissingTokens(required: seq<string>, granted: seq<string>)
    requires ScopeTokens(required)
    ensures ScopeTokens(Missing(required, granted))
  {
    var missing := Missing(required, granted);
    forall i | 0 <= i < |missing|
      ensures ScopeToken(missing[i])
    {
      assert missing[i] in required;
    }
  }

  /** A required scope the handle held, the session had forgotten, and the challenge does not happen to ask for. */
  ghost predicate Forgotten(required: seq<string>, granted: seq<string>, held: seq<string>) {
    exists s :: s in required && s in granted && s !in held && s !in Asked(Missing(required, granted))
  }

  /** The one retry after a challenge is refused exactly when a missing scope does not survive the challenge, or the
      session had forgotten a required scope that the handle held. */
  lemma {:induction false} RetryRefusedIff(server: Server, source: TokenSource, link: Link, tool: string)
    requires Held(link) && SendCall(server, link.Granted(), tool).Unauthorized?
    requires Request(server, Some(source), link, tool).0 != NoToken
    ensures Request(server, Some(source), link, tool).0 == RefusedAgain <==>
            || !Survives(Missing(server.Required(tool), link.Granted()))
            || Forgotten(server.Required(tool), link.Granted(), link.State().scopes)
  {
    hide Survives, Forgotten, Challenge, Requested, AcquireToken;
    var required, granted := server.Required(tool), link.Granted();
    var missing := Missing(required, granted);
    var state := HandleChallenge(source, Challenge(missing), link.State()).value;
    UpgradeGrants(source, Challenge(missing), link.State());
    RetryMissing(required, granted, link.State().scopes, state.scopes);
  }

  /** Which required scopes an upgrade leaves out. */
  lemma {:induction false} RetryMissing(required: seq<string>, granted: seq<string>, held: seq<string>,
      upgraded: seq<string>)
    requires Elements(held) <= Elements(granted) && Missing(required, granted) != []
    requires Elements(upgraded) == Elements(held) + Elements(Requested(Challenge(Missing(required, granted))))
    ensures Missing(required, upgraded) != [] <==>
            !Survives(Missing(required, granted)) || Forgotten(required, granted, held)
  {
    var missing := Missing(required, granted);
    var left := Missing(required, upgraded);
    SurvivesIff(missing);
    assert forall s :: s in upgraded <==> s in Elements(upgraded);
    assert forall s :: s in held ==> s in Elements(granted);
    assert left != [] ==> left[0] in left;
    if Survives(missing) {
      PlainReadsBack(missing);
      hide Asked, Challenge, Requested, Survives;
      assert forall s :: s in left ==> s in granted && s !in held && s !in Asked(missing);
    } else {
      hide Asked, Challenge, Requested, Survives;
      var i :| 0 <= i < |missing| && missing[i] !in Requested(Challenge(missing));
      assert missing[i] in missing && missing[i] !in held;
      assert missing[i] in left;
    }
  }

  lemma {:induction false} NothingForgotten(required: seq<string>, granted: seq<string>)
    ensures !Forgotten(required, granted, granted)
  {}

  /** In a history with one initialize per handle the retry is refused exactly when a missing scope does not survive
      the challenge; among scope-tokens those are the ones with a comma. */
  lemma {:induction false} RetryInHistory(server: Server, source: TokenSource, link: Link, ops: seq<Op>, tool: string)
    requires Agree(link) && SendCall(server, RunOps(server, link, ops).Granted(), tool).Unauthorized?
    requires Request(server, Some(source), RunOps(server, link, ops), tool).0 != NoToken
    ensures Request(server, Some(source), RunOps(server, link, ops), tool).0 == RefusedAgain <==>
            !Survives(Missing(server.Required(tool), RunOps(server, link, ops).Granted()))
    ensures ScopeTokens(server.Required(tool)) ==>
              (Request(server, Some(source), RunOps(server, link, ops), tool).0 == RefusedAgain <==>
               !NoComma(Missing(server.Required(tool), RunOps(server, link, ops).Granted())))
  {
    hide Survives, Request;
    RunAgrees(server, link, ops);
    var now := RunOps(server, link, ops);
    RetryRefusedIff(server, source, now, tool);
    NothingForgotten(server.Required(tool), now.Granted());
    assert now.State().scopes == now.Granted();
    if ScopeTokens(server.Required(tool)) {
      MissingTokens(server.Required(tool), now.Granted());
      TokensSurvive(Missing(server.Required(tool), now.Granted()));
    }
  }

  /** On every reachable link, after any calls and initializes: the retry is refused exactly when a missing scope does
      not survive the challenge or the session has forgotten a required scope of the handle. */
  lemma {:induction false} RetryAnywhere(server: Server, source: TokenSource, ops: seq<LinkOp>, tool: string)
    requires SendCall(server, RunLink(server, NEW_LINK, ops).Granted(), tool).Unauthorized?
    requires Request(server, Some(source), RunLink(server, NEW_LINK, ops), tool).0 != NoToken
    ensures var now := RunLink(server, NEW_LINK, ops);
            Request(server, Some(source), now, tool).0 == RefusedAgain <==>
            || !Survives(Missing(server.Required(tool), now.Granted()))
            || Forgotten(server.Required(tool), now.Granted(), now.State().scopes)
  {
    hide Request, SendCall, Survives, Forgotten;
    HeldStays(server, NEW_LINK, ops);
    RetryRefusedIff(server, source, RunLink(server, NEW_LINK, ops), tool);
  }

  /** After a second initialize on a handle the next upgrade grants what its challenge asks for and nothing else, so the
      retry lacks every required scope the handle held and the challenge does not name. For scope-tokens without commas
      that is every required scope it held. */
  lemma {:induction false} ReinitializeForgets(server: Server, source: TokenSource, link: Link, tool: string)
    requires SendCall(server, link.Granted(), tool).Unauthorized?
    requires Request(server, Some(source), Reinitialized(link), tool).0 != NoToken
    ensures var required, granted := server.Required(tool), link.Granted();
            var missing, r := Missing(required, granted), Request(server, Some(source), Reinitialized(link), tool);
            && Elements(r.1.Granted()) == Elements(Requested(Challenge(missing)))
            && (r.0 == RefusedAgain <==>
                !Survives(missing) || exists s :: s in required && s in granted && s !in Asked(missing))
            && (ScopeTokens(required) && NoComma(required) ==>
                  && Elements(r.1.Granted()) == Elements(missing)
                  && Elements(r.1.Granted()) !! Elements(granted)
                  && (r.0 == RefusedAgain <==> exists s :: s in required && s in granted))
  {
    hide Survives, Asked, Challenge, Requested, SendCall, Request, Missing;
    var required := server.Required(tool);
    ReinitializedUpgrade(server, source, link, tool);
    if ScopeTokens(required) && NoComma(required) {
      PlainMissing(required, link.Granted());
      assert forall s :: s in Missing(required, link.Granted()) <==> s in Elements(Missing(required, link.Granted()));
      assert forall s :: s in Asked(Missing(required, link.Granted())) <==>
                         s in Elements(Asked(Missing(required, link.Granted())));
    }
  }

  /** The upgrade after a second initialize starts from nothing. */
  lemma {:induction false} ReinitializedUpgrade(server: Server, source: TokenSource, link: Link, tool: string)
    requires SendCall(server, link.Granted(), tool).Unauthorized?
    requires Request(server, Some(source), Reinitialized(link), tool).0 != NoToken
    ensures var required, granted := server.Required(tool), link.Granted();
            var missing, r := Missing(required, granted), Request(server, Some(source), Reinitialized(link), tool);
            && missing != []
            && Elements(r.1.Granted()) == Elements(Requested(Challenge(missing)))
            && (r.0 == RefusedAgain <==>
                !Survives(missing) || exists s :: s in required && s in granted && s !in Asked(missing))
  {
    hide Survives, Asked, Challenge, Requested, AcquireToken;
    var bare := Reinitialized(link);
    UpgradeGrants(source, Challenge(Missing(server.Required(tool), link.Granted())), bare.State());
    RetryRefusedIff(server, source, bare, tool);
  }

  /** Missing scope-tokens without commas are asked for as they are. */
  lemma {:induction false} PlainMissing(required: seq<string>, granted: seq<string>)
    requires ScopeTokens(required) && NoComma(required) && Missing(required, granted) != []
    ensures var missing := Missing(required, granted);
            && Requested(Challenge(missing)) == missing && Survives(missing)
            && Elements(Asked(missing)) == Elements(missing)
  {
    hide Challenge, Requested, Survives, Asked;
    var missing := Missing(required, granted);
    MissingTokens(required, granted);
    forall i | 0 <= i < |missing|
      ensures ',' !in missing[i]
    {
      assert missing[i] in required;
    }
    ChallengeRoundTrip(missing);
    TokensSurvive(missing);
    TokensKeepQuotes(missing);
  }

  /** A server whose tool `u` needs one scope more than its tool `t`. */
  const TWO_TOOLS := Server({"t", "u"}, map["t" := ["a"], "u" := ["a", "b"]])

  lemma {:induction false} FixedTokenAlways(server: Server, token: string, link: Link, tool: string)
    ensures Request(server, Some(TokenSource(Some(token), map[])), link, tool).0 != NoToken
  {
    hide SendCall, ParseChallenge;
  }

  lemma {:induction false} PlainScopes(scopes: seq<string>)
    requires forall s :: s in scopes ==> s == "a" || s == "b"
    ensures ScopeTokens(scopes) && NoComma(scopes)
  {
    forall i | 0 <= i < |scopes|
      ensures ScopeToken(scopes[i]) && ',' !in scopes[i]
    {
      assert scopes[i] in scopes;
    }
  }

  /** The first call of a tool that needs plain scopes is granted exactly them and runs. */
  lemma {:induction false} FirstCallRuns(server: Server, token: string, tool: string)
    requires tool in server.tools && server.Required(tool) != []
    requires ScopeTokens(server.Required(tool)) && NoComma(server.Required(tool))
    ensures var r := Request(server, Some(TokenSource(Some(token), map[])), NEW_LINK, tool);
            r.0 == Ran && Elements(r.1.Granted()) == Elements(server.Required(tool))
  {
    var source, required := TokenSource(Some(token), map[]), server.Required(tool);
    var missing := Missing(required, []);
    assert required[0] in missing;
    PlainMissing(required, []);
    FixedTokenAlways(server, token, NEW_LINK, tool);
    hide Challenge, Requested, Survives, Asked, ScopeTokens, NoComma, ParseChallenge, AcquireToken, Forgotten, Dedupe,
      Words;
    assert Elements(missing) == Elements(required);
    UpgradeGrants(source, Challenge(missing), NO_STATE);
    NoneForgotten(required, []);
    RetryRefusedIff(server, source, NEW_LINK, tool);
  }

  lemma {:induction false} NoneForgotten(required: seq<string>, held: seq<string>)
    ensures !Forgotten(required, [], held)
  {}

  /** Calling `t`, initializing again and calling `u`: the upgrade for `u` drops the scope of `t`, and the call is
      refused although every scope was granted on request. */
  lemma {:induction false} RefusedAfterReinitialize(token: string)
    ensures var source := TokenSource(Some(token), map[]);
            var link := RunLink(TWO_TOOLS, NEW_LINK, [Call(Op("t", Some(source))), Initialize]);
            && Request(TWO_TOOLS, Some(source), NEW_LINK, "t").0 == Ran
            && Request(TWO_TOOLS, Some(source), link, "u").0 == RefusedAgain
  {
    hide Request, Missing, Challenge, Requested, Survives, Asked, ScopeTokens, NoComma;
    var source := TokenSource(Some(token), map[]);
    var last := [Initialize];
    var ops := [Call(Op("t", Some(source)))] + last;
    var called := StepLink(TWO_TOOLS, NEW_LINK, ops[0]);
    assert ops[1..] == last && last[1..] == [];
    assert RunLink(TWO_TOOLS, NEW_LINK, ops) == RunLink(TWO_TOOLS, called, last) ==
           RunLink(TWO_TOOLS, Reinitialized(called), last[1..]) == Reinitialized(called);
    assert TWO_TOOLS.Required("t") == ["a"];
    PlainScopes(["a"]);
    FirstCallRuns(TWO_TOOLS, token, "t");
    var required, granted := ["a", "b"], called.Granted();
    assert TWO_TOOLS.Required("u") == required;
    assert "a" in Elements(granted) && "b" !in Elements(granted);
    assert "b" in required && "b" in Missing(required, granted);
    PlainScopes(required);
    FixedTokenAlways(TWO_TOOLS, token, Reinitialized(called), "u");
    ReinitializeForgets(TWO_TOOLS, source, called, "u");
    assert "a" in required && "a" in granted;
  }
}
