/** The route guard every page of the web app runs through: a page other
    than the login page needs a stored token, and a logged-in user is sent
    away from the login page. */
module AppGuard {
  import opened Wrappers
  import opened Text

  /** The paths open without a token. */
  const PublicPaths: seq<string> := ["/login"]

  datatype Decision = Allow | Redirect(target: string)

  /** `publicPaths.some(p => path.startsWith(p))`. */
  predicate IsPublic(path: string)
  {
    exists k :: 0 <= k < |PublicPaths| && StartsWith(path, PublicPaths[k])
  }

  /** The token from local storage; an empty one is as good as none. */
  predicate HasToken(token: Option<string>)
  {
    token.Some? && token.value != []
  }

  /** `enforce`: the redirect the router is asked for, or Allow. */
  function Enforce(path: string, token: Option<string>): (d: Decision)
    ensures d == Redirect("/login") <==> !StartsWith(path, "/login") && !HasToken(token)
    ensures d == Redirect("/vehicles") <==> StartsWith(path, "/login") && HasToken(token)
    ensures d == Allow <==> (StartsWith(path, "/login") <==> !HasToken(token))
  {
    assert IsPublic(path) <==> StartsWith(path, "/login") by {
      assert PublicPaths[0] == "/login";
    }
    if !IsPublic(path) && !HasToken(token) then Redirect("/login")
    else if IsPublic(path) && HasToken(token) then Redirect("/vehicles")
    else Allow
  }

  /** A redirect lands on a page the guard allows, so the guard never
      bounces a user twice in a row. */
  lemma RedirectSettles(path: string, token: Option<string>)
    ensures Enforce(path, token).Redirect? ==> Enforce(Enforce(path, token).target, token) == Allow
  {
    if Enforce(path, token).Redirect? {
      var target := Enforce(path, token).target;
      if HasToken(token) {
        assert target == "/vehicles";
        assert !StartsWith(target, "/login") by {
          assert target[1] != "/login"[1];
        }
      } else {
        assert target == "/login";
        assert StartsWith(target, "/login");
      }
    }
  }

  /** Which pages a visitor reaches, for each path the router starts to
      change to (the first being the page loaded at mount): the path itself
      when allowed, else the redirect target. */
  function Reached(paths: seq<string>, token: Option<string>): (r: seq<string>)
    ensures |r| == |paths|
    ensures forall i :: 0 <= i < |paths| ==> Enforce(r[i], token) == Allow
    ensures forall i :: 0 <= i < |paths| ==>
      r[i] == (if Enforce(paths[i], token).Redirect? then Enforce(paths[i], token).target else paths[i])
  {
    if paths == [] then []
    else
      var p := paths[|paths| - 1];
      RedirectSettles(p, token);
      var d := Enforce(p, token);
      Reached(paths[..|paths| - 1], token) + [if d.Redirect? then d.target else p]
  }

  /** Without a token every page reached is the login page or one of its
      sub-paths; with one, never. */
  lemma TokenDecidesLogin(paths: seq<string>, token: Option<string>, i: nat)
    requires i < |paths|
    ensures StartsWith(Reached(paths, token)[i], "/login") <==> !HasToken(token)
  {
    var r := Reached(paths, token);
    assert Enforce(r[i], token) == Allow;
  }
}
