/** The authorization layer of the auction service.

    `SecurityUtil` reads the principal of the current request from the
    security-context slot and answers two questions about it: does the request
    act for account X, and does it carry session token T. It also installs a
    fixed bootstrap identity for internal work that runs without a user.

    The specification functions below take the context and the number of
    values the token generator has already handed out (`issued`), and give
    what one call observes. The class `SecurityUtil` holds the slot and the
    generator's state, and its methods are proved against those functions.
 */
module Security {
  import opened TokenOracle

  /** A Java `Long`: a signed 64-bit integer. */
  newtype Long = x: int | -0x8000_0000_0000_0000 <= x < 0x8000_0000_0000_0000

  datatype Option<T> = None | Some(value: T)

  /** The two ways a call can fail: a denied check, or a slot holding no authentication. */
  datatype Error = AccessDenied | NoAuthentication

  datatype Result<T> = Success(value: T) | Failure(error: Error)

  /** What a check returns: it passes, or it fails with an error. */
  datatype Outcome = Pass | Fail(error: Error)

  /** The principal record of an authenticated request (a `CustomUser`). */
  datatype Principal = CustomUser(
    username: string,
    password: string,
    enabled: bool,
    authorities: seq<string>,
    accountId: Long,
    authToken: string)

  /** The authentication a context holds: one installed for a user, or the bootstrap one. */
  datatype Authentication =
    | UserAuthentication(principal: Principal)
    | PhonyAuthentication

  /** The content of the security-context slot. `ContextImpl` is the ordinary context,
      which may hold no authentication; `PhonyContext` is the bootstrap context. */
  datatype Context =
    | ContextImpl(authentication: Option<Authentication>)
    | PhonyContext

  const EmptyContext: Context := ContextImpl(None)

  const BootstrapUsername: string := "initializationUser"
  const BootstrapPassword: string := "none"
  const BootstrapAuthority: string := "watcher"
  const BootstrapAccountId: Long := 1

  /** The principal the bootstrap authentication builds around a freshly drawn token. */
  function BootstrapPrincipal(token: string): (p: Principal)
    ensures p.username == "initializationUser" && p.password == "none" && p.enabled
    ensures p.authorities == ["watcher"] && p.accountId == 1 && p.authToken == token
  {
    CustomUser(BootstrapUsername, BootstrapPassword, true, [BootstrapAuthority], BootstrapAccountId, token)
  }

  /** `getAuthentication()` of a context. */
  function GetAuthentication(c: Context): (a: Option<Authentication>)
    ensures c.PhonyContext? ==> a == Some(PhonyAuthentication)
    ensures c.ContextImpl? ==> a == c.authentication
  {
    match c
    case ContextImpl(auth) => auth
    case PhonyContext => Some(PhonyAuthentication)
  }

  /** `setAuthentication(a)` of a context: the ordinary context stores `a`, the
      bootstrap context ignores it. */
  function WithAuthentication(c: Context, a: Option<Authentication>): (r: Context)
    ensures c.ContextImpl? ==> GetAuthentication(r) == a
    ensures c.PhonyContext? ==> r == c
  {
    match c
    case ContextImpl(_) => ContextImpl(a)
    case PhonyContext => PhonyContext
  }

  /** How many values the token generator hands out while the principal of `c` is read once. */
  function Draws(c: Context): (r: nat)
    ensures r <= 1
    ensures r == 1 <==> c == PhonyContext || c == ContextImpl(Some(PhonyAuthentication))
  {
    if GetAuthentication(c) == Some(PhonyAuthentication) then 1 else 0
  }

  /** The principal one read of `getPrincipal()` observes, when the generator has
      already handed out `issued` values. */
  function PrincipalOf(c: Context, issued: nat): (r: Result<Principal>)
    ensures r.Failure? <==> GetAuthentication(c).None?
    ensures r.Failure? ==> r.error == NoAuthentication
    ensures GetAuthentication(c) == Some(PhonyAuthentication) ==>
              r.Success? && r.value.authToken == FreshToken(issued)
    ensures GetAuthentication(c).Some? && GetAuthentication(c).value.UserAuthentication? ==>
              r == Success(GetAuthentication(c).value.principal)
  {
    match GetAuthentication(c)
    case None => Failure(NoAuthentication)
    case Some(UserAuthentication(p)) => Success(p)
    case Some(PhonyAuthentication) => Success(BootstrapPrincipal(FreshToken(issued)))
  }

  /** `getAccountFromPrincipal()`. */
  function AccountOf(c: Context, issued: nat): (r: Result<Long>)
    ensures r.Failure? <==> PrincipalOf(c, issued).Failure?
    ensures r.Success? ==> r.value == PrincipalOf(c, issued).value.accountId
    ensures r.Failure? ==> r.error == NoAuthentication
  {
    match PrincipalOf(c, issued)
    case Failure(e) => Failure(e)
    case Success(p) => Success(p.accountId)
  }

  /** `getAuthToken()`. */
  function TokenOf(c: Context, issued: nat): (r: Result<string>)
    ensures r.Failure? <==> PrincipalOf(c, issued).Failure?
    ensures r.Success? ==> r.value == PrincipalOf(c, issued).value.authToken
    ensures r.Failure? ==> r.error == NoAuthentication
  {
    match PrincipalOf(c, issued)
    case Failure(e) => Failure(e)
    case Success(p) => Success(p.authToken)
  }

  /** `getUsernameFromPrincipal()`. */
  function UsernameOf(c: Context, issued: nat): (r: Result<string>)
    ensures r.Failure? <==> PrincipalOf(c, issued).Failure?
    ensures r.Success? ==> r.value == PrincipalOf(c, issued).value.username
    ensures r.Failure? ==> r.error == NoAuthentication
  {
    match PrincipalOf(c, issued)
    case Failure(e) => Failure(e)
    case Success(p) => Success(p.username)
  }

  /** `Long.compareTo`: negative, zero or positive as `x` is below, equal to or above `y`. */
  function CompareLong(x: Long, y: Long): (r: int)
    ensures r == 0 <==> x == y
    ensures r < 0 <==> x < y
  {
    if x < y then -1 else if x == y then 0 else 1
  }

  /** What `checkAccount(requested)` does: a null id is denied before the context is
      read; otherwise the principal is read and its account id compared. */
  function AccountDecision(c: Context, issued: nat, requested: Option<Long>): (r: Outcome)
    ensures r == Pass <==>
              requested.Some? && PrincipalOf(c, issued).Success? &&
              requested.value == PrincipalOf(c, issued).value.accountId
    ensures requested.None? ==> r == Fail(AccessDenied)
    ensures requested.Some? && GetAuthentication(c).None? ==> r == Fail(NoAuthentication)
    ensures requested.Some? && GetAuthentication(c).Some? ==> r != Fail(NoAuthentication)
  {
    if requested.None? then Fail(AccessDenied)
    else
      match AccountOf(c, issued)
      case Failure(e) => Fail(e)
      case Success(own) => if CompareLong(requested.value, own) != 0 then Fail(AccessDenied) else Pass
  }

  /** What `checkAuthToken(requested)` does: a null token is denied before the context
      is read; otherwise the principal is read and its token compared exactly. */
  function TokenDecision(c: Context, issued: nat, requested: Option<string>): (r: Outcome)
    ensures r == Pass <==>
              requested.Some? && PrincipalOf(c, issued).Success? &&
              requested.value == PrincipalOf(c, issued).value.authToken
    ensures requested.None? ==> r == Fail(AccessDenied)
    ensures requested.Some? && GetAuthentication(c).None? ==> r == Fail(NoAuthentication)
    ensures requested.Some? && GetAuthentication(c).Some? ==> r != Fail(NoAuthentication)
  {
    if requested.None? then Fail(AccessDenied)
    else
      match TokenOf(c, issued)
      case Failure(e) => Fail(e)
      case Success(own) => if requested.value != own then Fail(AccessDenied) else Pass
  }

  /** How many values the token generator hands out during one check: none for a null
      argument, one principal read otherwise. */
  function CheckDraws<T>(c: Context, requested: Option<T>): (r: nat)
    ensures requested.None? ==> r == 0
    ensures requested.Some? ==> r == Draws(c)
  {
    if requested.None? then 0 else Draws(c)
  }

  /** The security-context slot together with the state of the token generator. */
  class SecurityUtil {
    /** The slot `SecurityContextHolder` keeps for the current request. */
    var context: Context
    /** How many values the token generator has handed out so far. */
    var issued: nat

    /** The slot starts with an ordinary context that holds no authentication. */
    constructor ()
      ensures context == EmptyContext && issued == 0
    {
      context := EmptyContext;
      issued := 0;
    }

    /** `SecurityContextHolder.setContext(c)`: the new context replaces the old one. */
    method SetContext(c: Context)
      modifies this`context
      ensures context == c
      ensures issued == old(issued)
    {
      context := c;
    }

    /** `getContext().setAuthentication(a)`. */
    method SetAuthentication(a: Option<Authentication>)
      modifies this`context
      ensures context == WithAuthentication(old(context), a)
      ensures issued == old(issued)
    {
      match context
      case ContextImpl(_) => context := ContextImpl(a);
      case PhonyContext =>
    }

    /** Draws the next value from the token generator. */
    method NextToken() returns (t: string)
      modifies this`issued
      ensures t == FreshToken(old(issued))
      ensures issued == old(issued) + 1
    {
      t := FreshToken(issued);
      issued := issued + 1;
    }

    /** `getPrincipal()`: reads the principal of the context without changing the slot. */
    method GetPrincipal() returns (r: Result<Principal>)
      modifies this`issued
      ensures r == PrincipalOf(context, old(issued))
      ensures issued == old(issued) + Draws(context)
      ensures context == old(context)
    {
      match GetAuthentication(context)
      case None =>
        r := Failure(NoAuthentication);
      case Some(UserAuthentication(p)) =>
        r := Success(p);
      case Some(PhonyAuthentication) =>
        var token := NextToken();
        r := Success(BootstrapPrincipal(token));
    }

    /** `getAccountFromPrincipal()`. */
    method GetAccountFromPrincipal() returns (r: Result<Long>)
      modifies this`issued
      ensures r == AccountOf(context, old(issued))
      ensures issued == old(issued) + Draws(context)
      ensures context == old(context)
    {
      var p := GetPrincipal();
      r := if p.Success? then Success(p.value.accountId) else Failure(p.error);
    }

    /** `getAuthToken()`. */
    method GetAuthToken() returns (r: Result<string>)
      modifies this`issued
      ensures r == TokenOf(context, old(issued))
      ensures issued == old(issued) + Draws(context)
      ensures context == old(context)
    {
      var p := GetPrincipal();
      r := if p.Success? then Success(p.value.authToken) else Failure(p.error);
    }

    /** `getUsernameFromPrincipal()`. */
    method GetUsernameFromPrincipal() returns (r: Result<string>)
      modifies this`issued
      ensures r == UsernameOf(context, old(issued))
      ensures issued == old(issued) + Draws(context)
      ensures context == old(context)
    {
      var p := GetPrincipal();
      r := if p.Success? then Success(p.value.username) else Failure(p.error);
    }

    /** `checkAccount(accountId)`: `Pass` where the source returns normally. */
    method CheckAccount(accountId: Option<Long>) returns (r: Outcome)
      modifies this`issued
      ensures r == AccountDecision(context, old(issued), accountId)
      ensures issued == old(issued) + CheckDraws(context, accountId)
      ensures context == old(context)
    {
      if accountId.None? {
        return Fail(AccessDenied);
      }
      var own := GetAccountFromPrincipal();
      if own.Failure? {
        return Fail(own.error);
      }
      if CompareLong(accountId.value, own.value) != 0 {
        return Fail(AccessDenied);
      }
      return Pass;
    }

    /** `checkAuthToken(token)`: `Pass` where the source returns normally. */
    method CheckAuthToken(token: Option<string>) returns (r: Outcome)
      modifies this`issued
      ensures r == TokenDecision(context, old(issued), token)
      ensures issued == old(issued) + CheckDraws(context, token)
      ensures context == old(context)
    {
      if token.None? {
        return Fail(AccessDenied);
      }
      var own := GetAuthToken();
      if own.Failure? {
        return Fail(own.error);
      }
      if token.value != own.value {
        return Fail(AccessDenied);
      }
      return Pass;
    }

    /** `setPhonySecurityContext()`: replaces the context with the bootstrap one. */
    method SetPhonySecurityContext()
      modifies this`context
      ensures context == PhonyContext
      ensures issued == old(issued)
    {
      context := PhonyContext;
    }
  }

  // Properties of the decisions, for every context and every state of the generator.

  /** The bootstrap identity: every read of its principal gives the same fixed
      fields and the token drawn by that read. */
  lemma BootstrapIdentity(issued: nat)
    ensures PrincipalOf(PhonyContext, issued).Success?
    ensures var p := PrincipalOf(PhonyContext, issued).value;
            p.username == "initializationUser" && p.accountId == 1 && p.enabled &&
            p.authorities == ["watcher"] && p.authToken == FreshToken(issued)
  {
  }

  /** With principal `p` installed, the accessors return `p`'s account id, token and
      username, whatever the generator's state. */
  lemma UserReads(p: Principal, issued: nat)
    ensures var c := ContextImpl(Some(UserAuthentication(p)));
            AccountOf(c, issued) == Success(p.accountId) &&
            TokenOf(c, issued) == Success(p.authToken) &&
            UsernameOf(c, issued) == Success(p.username)
  {
  }

  /** A principal read draws a token exactly when what it observes depends on the
      generator: with no draw every read is the same, with a draw no two reads agree. */
  lemma DrawsMatchFreshReads(c: Context, m: nat, n: nat)
    ensures Draws(c) == 0 ==> PrincipalOf(c, m) == PrincipalOf(c, n)
    ensures Draws(c) == 1 && m != n ==> PrincipalOf(c, m) != PrincipalOf(c, n)
  {
    if Draws(c) == 1 && m != n {
      FreshTokenInjective(m, n);
      assert PrincipalOf(c, m).value.authToken != PrincipalOf(c, n).value.authToken;
    }
  }

  /** Under the bootstrap context `checkAccount(b)` passes exactly for `b == 1`. */
  lemma BootstrapAccountDecision(issued: nat, b: Option<Long>)
    ensures AccountDecision(PhonyContext, issued, b) == Pass <==> b == Some(1)
    ensures b != Some(1) ==> AccountDecision(PhonyContext, issued, b) == Fail(AccessDenied)
  {
  }

  /** Two reads of the bootstrap token at different points of the generator's life differ. */
  lemma BootstrapTokensDistinct(m: nat, n: nat)
    requires m != n
    ensures TokenOf(PhonyContext, m).Success? && TokenOf(PhonyContext, n).Success?
    ensures TokenOf(PhonyContext, m).value != TokenOf(PhonyContext, n).value
  {
    FreshTokenInjective(m, n);
  }

  /** Under the bootstrap context `checkAuthToken` denies every token the generator
      has already handed out, the ones a caller could have read back included. */
  lemma BootstrapDeniesIssuedTokens(issued: nat, k: nat)
    requires k < issued
    ensures TokenDecision(PhonyContext, issued, Some(FreshToken(k))) == Fail(AccessDenied)
  {
    FreshTokenInjective(k, issued);
  }

  /** Under a context holding principal `p`, the checks pass for exactly `p`'s account
      id and token, whatever the generator's state. */
  lemma UserDecisions(p: Principal, issued: nat, a: Option<Long>, t: Option<string>)
    ensures var c := ContextImpl(Some(UserAuthentication(p)));
            (AccountDecision(c, issued, a) == Pass <==> a == Some(p.accountId)) &&
            (AccountDecision(c, issued, a) != Pass ==> AccountDecision(c, issued, a) == Fail(AccessDenied)) &&
            (TokenDecision(c, issued, t) == Pass <==> t == Some(p.authToken)) &&
            (TokenDecision(c, issued, t) != Pass ==> TokenDecision(c, issued, t) == Fail(AccessDenied))
  {
  }

  /** The bootstrap context ignores `setAuthentication`, so the identity a read
      observes cannot be swapped through it. */
  lemma PhonyKeepsIdentity(a: Option<Authentication>, issued: nat)
    ensures PrincipalOf(WithAuthentication(PhonyContext, a), issued) == PrincipalOf(PhonyContext, issued)
  {
  }

  // Clients: what a caller can conclude from the methods' contracts alone.

  /** A caller that installs the bootstrap context, reads its token back and presents
      it is denied: the check draws a new token. */
  method BootstrapReadBack() returns (token: Result<string>, r: Outcome)
    ensures token.Success? && |token.value| >= 1
    ensures r == Fail(AccessDenied)
  {
    var util := new SecurityUtil();
    util.SetPhonySecurityContext();
    token := util.GetAuthToken();
    BootstrapDeniesIssuedTokens(util.issued, util.issued - 1);
    r := util.CheckAuthToken(Some(token.value));
  }

  /** A request authenticated as account 42 with token "abc": the matching id and token
      pass, any other is denied, and a null id is denied. */
  method AuthenticatedRequest() returns (own: Outcome, other: Outcome, none: Outcome, good: Outcome, bad: Outcome)
    ensures own == Pass && other == Fail(AccessDenied) && none == Fail(AccessDenied)
    ensures good == Pass && bad == Fail(AccessDenied)
  {
    var util := new SecurityUtil();
    util.SetContext(ContextImpl(Some(UserAuthentication(CustomUser("alice", "secret", true, ["user"], 42, "abc")))));
    own := util.CheckAccount(Some(42));
    other := util.CheckAccount(Some(43));
    none := util.CheckAccount(None);
    good := util.CheckAuthToken(Some("abc"));
    bad := util.CheckAuthToken(Some("xyz"));
  }

  /** Installing a second context replaces the first: the first principal's account
      id then passes only if the two principals share it. */
  method ReplaceThenCheck(p1: Principal, p2: Principal) returns (r: Outcome)
    ensures r == Pass <==> p1.accountId == p2.accountId
    ensures r != Pass ==> r == Fail(AccessDenied)
  {
    var util := new SecurityUtil();
    util.SetContext(ContextImpl(Some(UserAuthentication(p1))));
    util.SetContext(ContextImpl(Some(UserAuthentication(p2))));
    r := util.CheckAccount(Some(p1.accountId));
  }

  /** With the slot empty, a null argument is denied while any other argument
      fails for want of an authentication. */
  method EmptySlot(x: Long, t: string) returns (nullAccount: Outcome, account: Outcome, nullToken: Outcome, token: Outcome)
    ensures nullAccount == Fail(AccessDenied) && nullToken == Fail(AccessDenied)
    ensures account == Fail(NoAuthentication) && token == Fail(NoAuthentication)
  {
    var util := new SecurityUtil();
    nullAccount := util.CheckAccount(None);
    account := util.CheckAccount(Some(x));
    nullToken := util.CheckAuthToken(None);
    token := util.CheckAuthToken(Some(t));
  }
}
