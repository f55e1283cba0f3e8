/**
 * The page gate: the `authorized` callback decides on the signed-in role and
 * the path, and the matcher decides which paths the gate runs on at all.
 */
module Middleware {
  import opened Wrappers
  import opened Domain
  import opened Strings

  /** The `authorized` callback; `token` is the decoded session token's role, None without a token. */
  function Authorized(token: Option<Role>, path: string): (r: bool)
    ensures token.None? ==> !r
    ensures token.Some? && StartsWith(path, "/admin") ==> (r <==> token.value == ADMIN)
    ensures token.Some? && !StartsWith(path, "/admin") && StartsWith(path, "/supplier") ==> (r <==> token.value == SUPPLIER)
    ensures token.Some? && !StartsWith(path, "/admin") && !StartsWith(path, "/supplier") && StartsWith(path, "/viewer") ==>
      (r <==> token.value == VIEWER)
    ensures token.Some? && !StartsWith(path, "/admin") && !StartsWith(path, "/supplier") && !StartsWith(path, "/viewer") ==> r
  {
    if token.None? then false
    else if StartsWith(path, "/admin") then token.value == ADMIN
    else if StartsWith(path, "/supplier") then token.value == SUPPLIER
    else if StartsWith(path, "/viewer") then token.value == VIEWER
    else true
  }

  /** The path pattern `<base>/:path*`: the base itself or anything below it. */
  predicate MatchesBase(path: string, base: string)
    ensures MatchesBase(path, base) ==> StartsWith(path, base)
    ensures StartsWith(path, base) && |path| > |base| && path[|base|] == '/' ==> MatchesBase(path, base)
  {
    path == base || StartsWith(path, base + "/")
  }

  /** The `matcher` list. */
  predicate Matched(path: string)
    ensures Matched(path) <==> SectionRole(path).Some?
  {
    MatchesBase(path, "/admin") || MatchesBase(path, "/supplier") || MatchesBase(path, "/viewer")
  }

  /** Whether a request for `path` gets through: the gate runs only on matched paths. */
  function Admits(token: Option<Role>, path: string): (r: bool)
    ensures !Matched(path) ==> r
    ensures Matched(path) ==> r == Authorized(token, path)
  {
    !Matched(path) || Authorized(token, path)
  }

  /** The role a matched path is reserved for. */
  function SectionRole(path: string): (r: Option<Role>)
    ensures r == Some(ADMIN) <==> MatchesBase(path, "/admin")
    ensures r == Some(SUPPLIER) <==> MatchesBase(path, "/supplier")
    ensures r == Some(VIEWER) <==> MatchesBase(path, "/viewer")
  {
    SectionsDisjoint(path);
    if MatchesBase(path, "/admin") then Some(ADMIN)
    else if MatchesBase(path, "/supplier") then Some(SUPPLIER)
    else if MatchesBase(path, "/viewer") then Some(VIEWER)
    else None
  }

  lemma PrefixOfPrefix(path: string, base: string)
    requires MatchesBase(path, base)
    ensures StartsWith(path, base)
  {
    if path != base {
      assert path[..|base|] == (base + "/")[..|base|];
    }
  }

  /** A path lies below at most one of the three bases, and is then below no other prefix. */
  lemma SectionsDisjoint(path: string)
    ensures MatchesBase(path, "/admin") ==> StartsWith(path, "/admin") && !StartsWith(path, "/supplier") && !StartsWith(path, "/viewer")
    ensures MatchesBase(path, "/supplier") ==> StartsWith(path, "/supplier") && !StartsWith(path, "/admin") && !StartsWith(path, "/viewer")
    ensures MatchesBase(path, "/viewer") ==> StartsWith(path, "/viewer") && !StartsWith(path, "/admin") && !StartsWith(path, "/supplier")
  {
    if MatchesBase(path, "/admin") {
      PrefixOfPrefix(path, "/admin");
      assert path[1] == 'a';
    }
    if MatchesBase(path, "/supplier") {
      PrefixOfPrefix(path, "/supplier");
      assert path[1] == 's';
    }
    if MatchesBase(path, "/viewer") {
      PrefixOfPrefix(path, "/viewer");
      assert path[1] == 'v';
    }
  }

  /**
   * Inside a matched section a request gets through exactly when it carries
   * a token for the section's role; outside every section anything does.
   */
  lemma SectionGate(token: Option<Role>, path: string)
    ensures Matched(path) ==> (Admits(token, path) <==> token.Some? && Some(token.value) == SectionRole(path))
    ensures !Matched(path) ==> Admits(token, path)
  {
    SectionsDisjoint(path);
  }
}
