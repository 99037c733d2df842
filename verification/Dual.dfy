/** Dual verification: the credential and the control plane are both asked, and the answer is
    what both grant. */
module Dual {
  import opened Domain
  import opened Order
  import opened Access
  import opened DecisionCache
  import Resolve

  datatype Refusal = Unauthenticated | AuthorizerFailed

  datatype Answer = Granted(decision: Decision) | Refused(why: Refusal)

  function CallerOf(d: Decision): Caller {
    Caller(d.principal, d.spaces, d.restricted)
  }

  predicate Reads(denyTypes: seq<string>, d: Decision, g: Guarded) {
    CanRead(denyTypes, CallerOf(d), g)
  }

  predicate CanWrite(d: Decision, space: SpaceId) {
    space in d.writeSpaces
  }

  predicate CanApprove(d: Decision, space: SpaceId) {
    space in d.approverSpaces
  }

  /** The spaces of a that b has too, each once, in a's order. */
  function Common(a: seq<SpaceId>, b: seq<SpaceId>): seq<SpaceId> {
    if a == [] then []
    else
      var front, last := Common(a[..|a| - 1], b), a[|a| - 1];
      if last in b && last !in front then front + [last] else front
  }

  lemma {:induction false} CommonIsBoth(a: seq<SpaceId>, b: seq<SpaceId>)
    ensures Distinct(Common(a, b)) && forall s :: s in Common(a, b) <==> s in a && s in b
    ensures forall i, j | 0 <= i < j < |Common(a, b)| ::
              Resolve.FirstAt(a, Common(a, b)[i]) < Resolve.FirstAt(a, Common(a, b)[j])
  {
    if a != [] {
      var before, last := a[..|a| - 1], a[|a| - 1];
      var front := Common(before, b);
      CommonIsBoth(before, b);
      assert a == before + [last];
      var r := Common(a, b);
      forall i, j | 0 <= i < j < |r| ensures Resolve.FirstAt(a, r[i]) < Resolve.FirstAt(a, r[j]) {
        Resolve.FirstAtPrefix(before, last, r[i]);
        Resolve.FirstAtPrefix(before, last, r[j]);
        assert front[i] in front && r[i] == front[i] && front[i] in before;
        if j < |front| {
          assert front[j] in front && r[j] == front[j] && front[j] in before;
          assert Resolve.FirstAt(before, front[i]) < Resolve.FirstAt(before, front[j]);
        } else {
          assert r[j] == last && last !in before;
        }
      }
    }
  }

  method Intersect(a: seq<SpaceId>, b: seq<SpaceId>) returns (out: seq<SpaceId>)
    ensures out == Common(a, b)
  {
    out := [];
    for i := 0 to |a|
      invariant out == Common(a[..i], b)
    {
      assert a[..i + 1][..i] == a[..i];
      if a[i] in b && a[i] !in out {
        out := out + [a[i]];
      }
    }
    assert a[..|a|] == a;
  }

  /** Either path failing denies, the credential's failure first; so does a different principal. */
  function AuthenticateDual(jwks: Answer, authorize: Answer): Answer {
    if jwks.Refused? then jwks
    else if authorize.Refused? then authorize
    else
      var j, a := jwks.decision, authorize.decision;
      if j.principal != a.principal then Refused(Unauthenticated)
      else Granted(j.(spaces := Common(j.spaces, a.spaces), writeSpaces := Common(j.writeSpaces, a.writeSpaces),
                      approverSpaces := Common(j.approverSpaces, a.approverSpaces),
                      restricted := j.restricted || a.restricted))
  }

  method Authenticate(jwks: Answer, authorize: Answer) returns (r: Answer)
    ensures r == AuthenticateDual(jwks, authorize)
  {
    if jwks.Refused? {
      return jwks;
    }
    if authorize.Refused? {
      return authorize;
    }
    var j, a := jwks.decision, authorize.decision;
    if j.principal != a.principal {
      return Refused(Unauthenticated);
    }
    var read := Intersect(j.spaces, a.spaces);
    var write := Intersect(j.writeSpaces, a.writeSpaces);
    var approve := Intersect(j.approverSpaces, a.approverSpaces);
    return Granted(j.(spaces := read, writeSpaces := write, approverSpaces := approve,
                      restricted := j.restricted || a.restricted));
  }

  /** The credential's own refusal comes first, then the control plane's, then a disagreement on the
      principal. A dual decision exists exactly when both paths grant one to the same principal; and it lets
      the caller read, write and approve exactly what both do: never more than either, and never
      less than what they share. */
  lemma DualIsBoth(denyTypes: seq<string>, jwks: Answer, authorize: Answer, g: Guarded, space: SpaceId)
    ensures jwks.Refused? ==> AuthenticateDual(jwks, authorize) == jwks
    ensures jwks.Granted? && authorize.Refused? ==> AuthenticateDual(jwks, authorize) == authorize
    ensures jwks.Granted? && authorize.Granted? && jwks.decision.principal != authorize.decision.principal ==>
              AuthenticateDual(jwks, authorize) == Refused(Unauthenticated)
    ensures AuthenticateDual(jwks, authorize).Granted?
            <==> jwks.Granted? && authorize.Granted? && jwks.decision.principal == authorize.decision.principal
    ensures AuthenticateDual(jwks, authorize).Granted? ==>
      var d, j, a := AuthenticateDual(jwks, authorize).decision, jwks.decision, authorize.decision;
      && d.principal == j.principal && (Reads(denyTypes, d, g) <==> Reads(denyTypes, j, g) && Reads(denyTypes, a, g))
      && (CanWrite(d, space) <==> CanWrite(j, space) && CanWrite(a, space))
      && (CanApprove(d, space) <==> CanApprove(j, space) && CanApprove(a, space))
  {
    if AuthenticateDual(jwks, authorize).Granted? {
      var j, a := jwks.decision, authorize.decision;
      CommonIsBoth(j.spaces, a.spaces);
      CommonIsBoth(j.writeSpaces, a.writeSpaces);
      CommonIsBoth(j.approverSpaces, a.approverSpaces);
    }
  }
}
