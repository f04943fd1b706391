/**
 Stored OAuth credentials and how each provider's refresher overwrites them with a token response.
 A JWT is represented by the claims `decodeJWTClaims` finds in it (None when it cannot be decoded).
 */
module Credentials {
  import opened Prelude

  datatype Provider = Claude | Codex | Grok

  datatype Credentials = Credentials(
    accessToken: string, refreshToken: string, idToken: string, apiKey: string, tokenType: string,
    chatGPTAccountID: string, organizationID: string, teamID: string, clientID: string,
    scope: string, userID: string, email: string)

  /** The claims read from a JWT; `auth` fields come from the nested OpenAI claim object. */
  datatype Claims = Claims(
    email: string, accountID: string, authAccountID: string, userID: string, authUserID: string,
    subject: string, organizationID: string, authOrganizationID: string)

  /** A token endpoint's answer; the claims are those of its id token and its access token. */
  datatype TokenResponse = TokenResponse(
    accessToken: string, refreshToken: string, idToken: string, tokenType: string, scope: string,
    expiresAt: Option<int>, idClaims: Option<Claims>, accessClaims: Option<Claims>)

  const EMPTY := Credentials("", "", "", "", "", "", "", "", "", "", "", "")

  function WithClaims(c: Credentials, claims: Option<Claims>): Credentials {
    match claims
    case None => c
    case Some(k) =>
      c.(email := FirstNonEmpty(c.email, k.email),
         chatGPTAccountID := FirstNonEmpty(c.chatGPTAccountID, FirstNonEmpty(k.accountID, k.authAccountID)),
         userID := FirstNonEmpty(c.userID, FirstNonEmpty(k.userID, FirstNonEmpty(k.authUserID, k.subject))),
         organizationID := FirstNonEmpty(c.organizationID, FirstNonEmpty(k.organizationID, k.authOrganizationID)))
  }

  function FromCodexToken(token: TokenResponse, clientID: string, fallbackScope: string): Credentials {
    var base := EMPTY.(accessToken := token.accessToken, refreshToken := token.refreshToken,
                       idToken := token.idToken, tokenType := FirstNonEmpty(token.tokenType, "Bearer"),
                       clientID := clientID, scope := FirstNonEmpty(token.scope, fallbackScope));
    var withId := WithClaims(base, token.idClaims);
    if withId.chatGPTAccountID == "" then WithClaims(withId, token.accessClaims) else withId
  }

  /** The credentials a refresher stores after an accepted answer. */
  function Refreshed(p: Provider, stored: Credentials, token: TokenResponse, clientID: string): Credentials {
    match p
    case Codex =>
      var c := FromCodexToken(token, clientID, stored.scope);
      c.(refreshToken := FirstNonEmpty(c.refreshToken, stored.refreshToken),
         chatGPTAccountID := FirstNonEmpty(c.chatGPTAccountID, stored.chatGPTAccountID),
         organizationID := FirstNonEmpty(c.organizationID, stored.organizationID),
         userID := FirstNonEmpty(c.userID, stored.userID),
         email := FirstNonEmpty(c.email, stored.email))
    case _ =>
      stored.(accessToken := token.accessToken,
           tokenType := FirstNonEmpty(token.tokenType, FirstNonEmpty(stored.tokenType, "Bearer")),
           clientID := clientID,
           refreshToken := FirstNonEmpty(token.refreshToken, stored.refreshToken),
           idToken := if p == Grok then FirstNonEmpty(token.idToken, stored.idToken) else stored.idToken,
           scope := FirstNonEmpty(token.scope, stored.scope))
  }

  /** No field that held something before is empty afterwards. */
  predicate NothingLost(stored: Credentials, c: Credentials) {
    && (stored.accessToken != "" ==> c.accessToken != "")
    && (stored.refreshToken != "" ==> c.refreshToken != "")
    && (stored.idToken != "" ==> c.idToken != "")
    && (stored.apiKey != "" ==> c.apiKey != "")
    && (stored.tokenType != "" ==> c.tokenType != "")
    && (stored.chatGPTAccountID != "" ==> c.chatGPTAccountID != "")
    && (stored.organizationID != "" ==> c.organizationID != "")
    && (stored.teamID != "" ==> c.teamID != "")
    && (stored.clientID != "" ==> c.clientID != "")
    && (stored.scope != "" ==> c.scope != "")
    && (stored.userID != "" ==> c.userID != "")
    && (stored.email != "" ==> c.email != "")
  }

  /**
   A refresh keeps every stored field unless it is Codex's: that one rebuilds the record from the
   answer and carries over only some fields, so it loses an API key, a team id, and an id token
   the answer does not renew.
   */
  lemma RefreshLosesNothingIff(p: Provider, stored: Credentials, token: TokenResponse, clientID: string)
    requires token.accessToken != "" && (stored.clientID != "" ==> clientID != "")
    ensures NothingLost(stored, Refreshed(p, stored, token, clientID)) <==>
            (p == Codex ==> stored.apiKey == "" && stored.teamID == "" && (stored.idToken == "" || token.idToken != ""))
  {
    if p == Codex {
      var c := FromCodexToken(token, clientID, stored.scope);
      assert c.idToken == token.idToken && c.apiKey == "" && c.teamID == "";
      assert c.tokenType != "";
    }
  }

  /** Codex credentials with everything a refresh can lose, and an answer that renews the access token only. */
  const CODEX_ACCOUNT := EMPTY.(accessToken := "a", refreshToken := "r", idToken := "i", apiKey := "k", teamID := "t")
  const ACCESS_TOKEN_ONLY := TokenResponse("b", "", "", "", "", None, None, None)

  /** That refresh keeps the refresh token and loses API key, team id and id token. */
  lemma CodexRefreshLosesKey(clientID: string)
    ensures var c := Refreshed(Codex, CODEX_ACCOUNT, ACCESS_TOKEN_ONLY, clientID);
            && c.accessToken == "b" && c.refreshToken == "r"
            && c.apiKey == "" && c.teamID == "" && c.idToken == ""
            && !NothingLost(CODEX_ACCOUNT, c)
  {
    RefreshedTokens(Codex, CODEX_ACCOUNT, ACCESS_TOKEN_ONLY, clientID);
  }

  /** The tokens after a refresh: always the new access token; the stored one is kept only if none came. */
  lemma RefreshedTokens(p: Provider, stored: Credentials, token: TokenResponse, clientID: string)
    ensures var c := Refreshed(p, stored, token, clientID);
            && c.accessToken == token.accessToken
            && c.refreshToken == if token.refreshToken != "" then token.refreshToken else stored.refreshToken
  {
    if p == Codex {
      var c := FromCodexToken(token, clientID, stored.scope);
      assert c.accessToken == token.accessToken && c.refreshToken == token.refreshToken;
    }
  }

  /** The first text that is not empty. */
  function FirstOf(texts: seq<string>): string {
    if texts == [] then "" else if texts[0] != "" then texts[0] else FirstOf(texts[1..])
  }

  const NO_CLAIMS := Claims("", "", "", "", "", "", "", "")

  lemma FirstOfOne(a: string)
    ensures FirstOf([a]) == a
  {
    assert [a][1..] == [];
  }

  lemma FirstOfTwo(a: string, b: string)
    ensures FirstOf([a, b]) == if a != "" then a else b
  {
    assert [a, b][1..] == [b];
    FirstOfOne(b);
  }

  lemma FirstOfThree(a: string, b: string, c: string)
    ensures FirstOf([a, b, c]) == if a != "" then a else if b != "" then b else c
  {
    assert [a, b, c][1..] == [b, c];
    FirstOfTwo(b, c);
  }

  lemma FirstOfAppend(a: seq<string>, b: seq<string>)
    ensures FirstOf(a + b) == if FirstOf(a) != "" then FirstOf(a) else FirstOf(b)
  {
    if a == [] {
      assert a + b == b;
    } else {
      assert (a + b)[0] == a[0] && (a + b)[1..] == a[1..] + b;
      FirstOfAppend(a[1..], b);
    }
  }

  /** Who a refreshed Codex account is: the id token says first, then the access token if that names no account, then the row. */
  lemma CodexIdentity(stored: Credentials, token: TokenResponse, clientID: string)
    ensures var i := if token.idClaims.Some? then token.idClaims.value else NO_CLAIMS;
            var named := FirstOf([i.accountID, i.authAccountID]) != "";
            var a := if token.accessClaims.Some? && !named then token.accessClaims.value else NO_CLAIMS;
            var c := Refreshed(Codex, stored, token, clientID);
            && c.email == FirstOf([i.email, a.email, stored.email])
            && c.chatGPTAccountID == FirstOf([i.accountID, i.authAccountID] + [a.accountID, a.authAccountID, stored.chatGPTAccountID])
            && c.userID == FirstOf([i.userID, i.authUserID, i.subject] + ([a.userID, a.authUserID, a.subject] + [stored.userID]))
            && c.organizationID == FirstOf([i.organizationID, i.authOrganizationID] + [a.organizationID, a.authOrganizationID, stored.organizationID])
            && c.idToken == token.idToken && c.clientID == clientID
            && c.scope == (if token.scope != "" then token.scope else stored.scope)
            && c.tokenType == (if token.tokenType != "" then token.tokenType else "Bearer")
  {
    var i := if token.idClaims.Some? then token.idClaims.value else NO_CLAIMS;
    var named := FirstOf([i.accountID, i.authAccountID]) != "";
    var a := if token.accessClaims.Some? && !named then token.accessClaims.value else NO_CLAIMS;
    FirstOfThree(i.email, a.email, stored.email);
    FirstOfTwo(i.accountID, i.authAccountID);
    FirstOfThree(a.accountID, a.authAccountID, stored.chatGPTAccountID);
    FirstOfAppend([i.accountID, i.authAccountID], [a.accountID, a.authAccountID, stored.chatGPTAccountID]);
    FirstOfThree(i.userID, i.authUserID, i.subject);
    FirstOfThree(a.userID, a.authUserID, a.subject);
    FirstOfOne(stored.userID);
    FirstOfAppend([a.userID, a.authUserID, a.subject], [stored.userID]);
    FirstOfAppend([i.userID, i.authUserID, i.subject], [a.userID, a.authUserID, a.subject] + [stored.userID]);
    FirstOfTwo(i.organizationID, i.authOrganizationID);
    FirstOfThree(a.organizationID, a.authOrganizationID, stored.organizationID);
    FirstOfAppend([i.organizationID, i.authOrganizationID], [a.organizationID, a.authOrganizationID, stored.organizationID]);
  }

  /** A refreshed Claude or Grok account keeps who it is; what the answer leaves out stays. Only Grok takes a new id token. */
  lemma OthersKeepIdentity(p: Provider, stored: Credentials, token: TokenResponse, clientID: string)
    requires p == Claude || p == Grok
    ensures var c := Refreshed(p, stored, token, clientID);
            && c.email == stored.email && c.userID == stored.userID && c.organizationID == stored.organizationID
            && c.chatGPTAccountID == stored.chatGPTAccountID && c.teamID == stored.teamID && c.apiKey == stored.apiKey
            && c.clientID == clientID && c.scope == (if token.scope != "" then token.scope else stored.scope)
            && c.tokenType == FirstOf([token.tokenType, stored.tokenType, "Bearer"])
            && c.idToken == (if p == Grok && token.idToken != "" then token.idToken else stored.idToken)
  {
    FirstOfThree(token.tokenType, stored.tokenType, "Bearer");
  }

  /** applyCodexClaims fills empty identity fields in turn and never overwrites one. */
  method ApplyCodexClaims(c: Credentials, claims: Option<Claims>) returns (r: Credentials)
    ensures r == WithClaims(c, claims)
    ensures c.email != "" ==> r.email == c.email
    ensures c.chatGPTAccountID != "" ==> r.chatGPTAccountID == c.chatGPTAccountID
    ensures c.userID != "" ==> r.userID == c.userID
    ensures c.organizationID != "" ==> r.organizationID == c.organizationID
  {
    r := c;
    if claims.None? { return; }
    var k := claims.value;
    if r.email == "" { r := r.(email := k.email); }
    if r.chatGPTAccountID == "" { r := r.(chatGPTAccountID := FirstNonEmpty(k.accountID, k.authAccountID)); }
    if r.userID == "" { r := r.(userID := FirstNonEmpty(k.userID, FirstNonEmpty(k.authUserID, k.subject))); }
    if r.organizationID == "" { r := r.(organizationID := FirstNonEmpty(k.organizationID, k.authOrganizationID)); }
  }

  /** The statement-by-statement update of the Claude and Grok refreshers. */
  method OverwriteInPlace(p: Provider, stored: Credentials, token: TokenResponse, clientID: string)
    returns (credentials: Credentials)
    requires p != Codex
    ensures credentials == Refreshed(p, stored, token, clientID)
  {
    credentials := stored;
    credentials := credentials.(accessToken := token.accessToken);
    credentials := credentials.(tokenType := FirstNonEmpty(token.tokenType, FirstNonEmpty(credentials.tokenType, "Bearer")));
    credentials := credentials.(clientID := clientID);
    if token.refreshToken != "" { credentials := credentials.(refreshToken := token.refreshToken); }
    if p == Grok && token.idToken != "" { credentials := credentials.(idToken := token.idToken); }
    if token.scope != "" { credentials := credentials.(scope := token.scope); }
  }

  /** The Codex refresher: rebuild from the answer, then carry over what came back empty. */
  method RebuildFromCodexToken(stored: Credentials, token: TokenResponse, clientID: string)
    returns (refreshed: Credentials)
    ensures refreshed == Refreshed(Codex, stored, token, clientID)
  {
    refreshed := EMPTY.(accessToken := token.accessToken, refreshToken := token.refreshToken,
                        idToken := token.idToken, tokenType := FirstNonEmpty(token.tokenType, "Bearer"),
                        clientID := clientID, scope := FirstNonEmpty(token.scope, stored.scope));
    refreshed := ApplyCodexClaims(refreshed, token.idClaims);
    if refreshed.chatGPTAccountID == "" {
      refreshed := ApplyCodexClaims(refreshed, token.accessClaims);
    }
    if refreshed.refreshToken == "" { refreshed := refreshed.(refreshToken := stored.refreshToken); }
    if refreshed.chatGPTAccountID == "" { refreshed := refreshed.(chatGPTAccountID := stored.chatGPTAccountID); }
    if refreshed.organizationID == "" { refreshed := refreshed.(organizationID := stored.organizationID); }
    if refreshed.userID == "" { refreshed := refreshed.(userID := stored.userID); }
    if refreshed.email == "" { refreshed := refreshed.(email := stored.email); }
  }
}
