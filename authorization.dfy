/** The authorizer algebra: an authorizer votes Allow or Deny, abstains, or
    fails; lists of authorizers take the first vote; combinators rewrite the
    vote of the authorizer they wrap; and the final decision treats an
    abstention as a refusal. */
module Authorization {

  import opened Wrappers
  import opened AuthErrors
  import opened Users
  import Requests

  datatype Outcome = Allow | Deny

  /** `Ok(None)` abstains, `Ok(Some(o))` votes, `Err(e)` fails. */
  type Vote = Result<Option<Outcome>, AuthError>

  const ABSTAIN: Vote := Ok(None)

  /** What an authorizer sees: the request and the identity it acts for. */
  datatype Context = Context(request: Requests.ServiceRequest, identity: UserInformation)

  datatype Authorizer =
      /** `Vec<Box<dyn Authorizer>>`: the members in order. */
    | List(members: seq<Authorizer>)
      /** `Option<A>`. */
    | Optional(maybe: Option<Authorizer>)
      /** `OrElseAuthorizer(a, o)`. */
    | OrElse(inner: Authorizer, outcome: Outcome)
      /** `IntoNotFound(a, f)`: `f` names the resource (type and id). */
    | IntoNotFound(inner: Authorizer, resource: Context -> (string, string))
    | NotAnonymous
      /** Any other implementation, given by its votes. */
    | Custom(authorize: Context -> Vote)

  /** `Authorizer::authorize`. */
  function Authorize(a: Authorizer, ctx: Context): (r: Vote)
    ensures a.OrElse? ==> r != ABSTAIN
    ensures a.IntoNotFound? ==> r != Ok(Some(Deny))
    ensures a.NotAnonymous? ==> r.Ok? && (r == Ok(Some(Deny)) <==> ctx.identity.Anonymous?)
    decreases a
  {
    match a
    case List(members) => AuthorizeAll(members, ctx)
    case Optional(inner) =>
      (match inner
       case Some(authorizer) => Authorize(authorizer, ctx)
       case None => ABSTAIN)
    case OrElse(inner, outcome) =>
      (match Authorize(inner, ctx)
       case Ok(r) => Ok(Some(if r.Some? then r.value else outcome))
       case Err(e) => Err(e))
    case IntoNotFound(inner, resource) =>
      (match Authorize(inner, ctx)
       case Ok(None) => Ok(None)
       case Ok(Some(Allow)) => Ok(Some(Allow))
       case Ok(Some(Deny)) =>
         var (kind, id) := resource(ctx);
         Err(NotFound(kind, id))
       case Err(err) => Err(err))
    case NotAnonymous =>
      Ok(match ctx.identity
         case Anonymous => Some(Deny)
         case Authenticated(_) => None)
    case Custom(authorize) => authorize(ctx)
  }

  /** The list loop: ask each member in turn, stop at the first vote or
      error, abstain when every member abstains. */
  function AuthorizeAll(members: seq<Authorizer>, ctx: Context): (r: Vote)
    ensures members == [] ==> r == ABSTAIN
    ensures r != ABSTAIN ==> exists i :: 0 <= i < |members| && Authorize(members[i], ctx) == r
    decreases members
  {
    if members == [] then ABSTAIN
    else
      match Authorize(members[0], ctx)
      case Err(e) => Err(e)
      case Ok(Some(outcome)) => Ok(Some(outcome))
      case Ok(None) => AuthorizeAll(members[1..], ctx)
  }

  /** First decisive member wins: when every member before `k` abstains and
      member `k` votes or fails, the list returns exactly that vote or error,
      and the members after `k` are not consulted. */
  lemma {:induction false} FirstDecisiveWins(members: seq<Authorizer>, ctx: Context, k: nat)
    requires k < |members|
    requires forall i :: 0 <= i < k ==> Authorize(members[i], ctx) == ABSTAIN
    requires Authorize(members[k], ctx) != ABSTAIN
    ensures Authorize(List(members), ctx) == Authorize(members[k], ctx)
  {
    if k > 0 {
      assert Authorize(members[0], ctx) == ABSTAIN;
      FirstDecisiveWins(members[1..], ctx, k - 1);
    }
  }

  /** A list abstains exactly when all of its members abstain (so an empty
      list abstains). */
  lemma {:induction false} AbstainsIffAllAbstain(members: seq<Authorizer>, ctx: Context)
    ensures Authorize(List(members), ctx) == ABSTAIN <==>
      forall i :: 0 <= i < |members| ==> Authorize(members[i], ctx) == ABSTAIN
  {
    if members != [] {
      AbstainsIffAllAbstain(members[1..], ctx);
      if Authorize(members[0], ctx) == ABSTAIN {
        forall i | 0 <= i < |members[1..]| ensures members[1..][i] == members[i + 1] { }
      }
    }
  }

  /** Appending members matters only when the first part abstains. */
  lemma {:induction false} ConcatLists(xs: seq<Authorizer>, ys: seq<Authorizer>, ctx: Context)
    ensures AuthorizeAll(xs + ys, ctx) ==
      (if AuthorizeAll(xs, ctx) == ABSTAIN then AuthorizeAll(ys, ctx) else AuthorizeAll(xs, ctx))
  {
    if xs != [] {
      assert (xs + ys)[0] == xs[0];
      assert (xs + ys)[1..] == xs[1..] + ys;
      ConcatLists(xs[1..], ys, ctx);
    } else {
      assert xs + ys == ys;
    }
  }

  /** Nesting a list inside a list behaves like splicing its members in. */
  lemma FlattenNested(xs: seq<Authorizer>, ys: seq<Authorizer>, zs: seq<Authorizer>, ctx: Context)
    ensures Authorize(List(xs + [List(ys)] + zs), ctx) == Authorize(List(xs + ys + zs), ctx)
  {
    ConcatLists(xs + [List(ys)], zs, ctx);
    ConcatLists(xs, [List(ys)], ctx);
    ConcatLists([List(ys)], [], ctx);
    assert [List(ys)][1..] == [];
    ConcatLists(xs + ys, zs, ctx);
    ConcatLists(xs, ys, ctx);
  }

  /** `None` abstains; `Some(a)` votes as `a` does. */
  lemma OptionalVotes(inner: Option<Authorizer>, ctx: Context)
    ensures inner.None? ==> Authorize(Optional(inner), ctx) == ABSTAIN
    ensures inner.Some? ==> Authorize(Optional(inner), ctx) == Authorize(inner.value, ctx)
  {
  }

  /** `or_else(o)` never abstains: an abstention becomes `o`, votes and
      errors are kept. */
  lemma OrElseVotes(inner: Authorizer, outcome: Outcome, ctx: Context)
    ensures var r := Authorize(OrElse(inner, outcome), ctx);
      && r != ABSTAIN
      && (Authorize(inner, ctx) == ABSTAIN ==> r == Ok(Some(outcome)))
      && (Authorize(inner, ctx) != ABSTAIN ==> r == Authorize(inner, ctx))
  {
  }

  /** `into_not_found(f)` turns a Deny into `NotFound(f(ctx))` and keeps every
      other result, so it never votes Deny. */
  lemma IntoNotFoundVotes(inner: Authorizer, resource: Context -> (string, string), ctx: Context)
    ensures var r := Authorize(IntoNotFound(inner, resource), ctx);
      && r != Ok(Some(Deny))
      && (Authorize(inner, ctx) == Ok(Some(Deny)) ==> r == Err(NotFound(resource(ctx).0, resource(ctx).1)))
      && (Authorize(inner, ctx) != Ok(Some(Deny)) ==> r == Authorize(inner, ctx))
  {
  }

  /** `NotAnonymous` denies the anonymous identity and abstains otherwise; it
      never allows and never fails. */
  lemma NotAnonymousVotes(ctx: Context)
    ensures Authorize(NotAnonymous, ctx) == Ok(Some(Deny)) <==> ctx.identity.Anonymous?
    ensures Authorize(NotAnonymous, ctx) == ABSTAIN <==> ctx.identity.Authenticated?
  {
  }

  /** The authorization entry point, holding one authorizer. */
  datatype AuthZ = AuthZ(authorizer: Authorizer)

  /** `AuthZ::authorize`: only an Allow vote lets the request through; a Deny
      and an abstention are both `Forbidden`; errors are passed on. */
  function AuthorizeRequest(authz: AuthZ, ctx: Context): (r: Result<(), AuthError>)
    ensures r.Ok? <==> Authorize(authz.authorizer, ctx) == Ok(Some(Allow))
    ensures Authorize(authz.authorizer, ctx) in {ABSTAIN, Ok(Some(Deny))} ==> r == Err(Forbidden)
    ensures Authorize(authz.authorizer, ctx).Err? ==> r == Err(Authorize(authz.authorizer, ctx).error)
  {
    match Authorize(authz.authorizer, ctx)
    case Ok(Some(Allow)) => Ok(())
    case Ok(None) => Err(Forbidden)
    case Ok(Some(Deny)) => Err(Forbidden)
    case Err(err) => Err(err)
  }

  /** `AuthorizerExt::or_else_allow`. */
  function OrElseAllow(a: Authorizer): Authorizer
  {
    OrElse(a, Allow)
  }

  /** `AuthorizerExt::or_else_deny`. */
  function OrElseDeny(a: Authorizer): Authorizer
  {
    OrElse(a, Deny)
  }

  /** With `or_else_allow` a request passes unless the wrapped authorizer
      denies or fails; with `or_else_deny` it passes only on an explicit
      Allow. */
  lemma OrElseDecisions(a: Authorizer, ctx: Context)
    ensures AuthorizeRequest(AuthZ(OrElseAllow(a)), ctx).Ok? <==> Authorize(a, ctx) in {ABSTAIN, Ok(Some(Allow))}
    ensures AuthorizeRequest(AuthZ(OrElseDeny(a)), ctx).Ok? <==> Authorize(a, ctx) == Ok(Some(Allow))
  {
  }

  /** Two votes and a default: `[Deny, Allow]` is Deny, two abstentions
      fall to the default, and an error stops the list before an Allow. */
  lemma ListExamples(ctx: Context, e: AuthError)
    ensures Authorize(List([Custom(_ => Ok(Some(Deny))), Custom(_ => Ok(Some(Allow)))]), ctx) == Ok(Some(Deny))
    ensures Authorize(OrElse(List([Custom(_ => ABSTAIN), Custom(_ => ABSTAIN)]), Allow), ctx) == Ok(Some(Allow))
    ensures Authorize(OrElse(List([Custom(_ => ABSTAIN), Custom(_ => ABSTAIN)]), Deny), ctx) == Ok(Some(Deny))
    ensures Authorize(List([Custom(_ => Err(e)), Custom(_ => Ok(Some(Allow)))]), ctx) == Err(e)
  {
    var abstain := [Custom(_ => ABSTAIN), Custom(_ => ABSTAIN)];
    assert abstain[1..][1..] == [];
  }
}
