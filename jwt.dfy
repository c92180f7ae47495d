/** security/JwtTokenProvider.java (resolveToken) and security/JwtAuthFilter.java:
    reading the `Authorization: Bearer <token>` header (the Bearer scheme of
    section 2.1 of RFC 6750) and deciding whether a request is authenticated. */
module Jwt {
  import opened Wrappers
  import opened Text
  import opened Exceptions
  import opened Entities
  import opened UserService

  /** The scheme prefix, case and trailing space included. */
  const BEARER_PREFIX: string := "Bearer "

  /** The authority every authenticated caller is granted. */
  const ROLE_USER: string := "ROLE_USER"

  /** resolveToken: the header with `Bearer ` removed; none when the header
      is absent or does not start with exactly that prefix. */
  function ResolveToken(header: Option<string>): (r: Option<string>)
    ensures r.Some? <==> header.Some? && StartsWith(header.value, BEARER_PREFIX)
    ensures r.Some? ==> BEARER_PREFIX + r.value == header.value
    ensures r.Some? ==> |r.value| == |header.value| - 7
  {
    if header.Some? && StartsWith(header.value, BEARER_PREFIX) then
      assert header.value == header.value[..7] + header.value[7..];
      Some(header.value[7..])
    else None
  }

  /** Every token sent as `Bearer <t>` is read back as `t`. */
  lemma ResolveRoundTrip(t: string)
    ensures ResolveToken(Some(BEARER_PREFIX + t)) == Some(t)
  {
    assert (BEARER_PREFIX + t)[..7] == BEARER_PREFIX;
    assert (BEARER_PREFIX + t)[7..] == t;
  }

  /** `Bearer ` alone yields the empty token, not none; a lower-case scheme
      or a missing space yields none. */
  lemma ResolveEdgeCases()
    ensures ResolveToken(Some("Bearer ")) == Some("")
    ensures ResolveToken(Some("bearer abc")) == None
    ensures ResolveToken(Some("Bearerabc")) == None
    ensures ResolveToken(None) == None
  {
    ResolveRoundTrip("");
    assert "Bearer " == BEARER_PREFIX + "";
    assert "bearer abc"[0] != BEARER_PREFIX[0];
    assert "Bearerabc"[6] != BEARER_PREFIX[6];
  }

  /** The authentication the filter installs: the username as principal, no
      credentials, and the granted authorities. */
  datatype Authentication = Authentication(principal: string, authorities: seq<string>)

  /** doFilterInternal's decision. The token is the header after its first
      seven characters when it starts with `Bearer `; an authentication is
      produced when the token validates and names a stored user. Looking the
      user up throws when several accounts share the name. `extract` gives
      none for a token without a subject, which no stored user matches. */
  function Decide(header: Option<string>, validate: string -> bool, extract: string -> Option<string>,
                  users: map<Id, User>, hi: int): (r: Result<Option<Authentication>, Exception>)
    ensures r.Success? && r.value.Some? <==>
      && ResolveToken(header).Some?
      && validate(ResolveToken(header).value)
      && extract(ResolveToken(header).value).Some?
      && FindByUsername(users, hi, extract(ResolveToken(header).value).value).Success?
      && FindByUsername(users, hi, extract(ResolveToken(header).value).value).value.Some?
    ensures r.Success? && r.value.Some? ==>
      r.value.value == Authentication(extract(ResolveToken(header).value).value, [ROLE_USER])
    ensures r.Failure? ==> r.error == IncorrectResultSize && !UniqueUsernames(users)
  {
    if header.None? || !StartsWith(header.value, BEARER_PREFIX) then Success(None)
    else
      var token := header.value[7..];
      if !validate(token) then Success(None)
      else
        var username := extract(token);
        if username.None? then Success(None)
        else
          var found := FindByUsername(users, hi, username.value);
          if found.Failure? then
            FoundManyMeaning(users, hi, username.value);
            Failure(found.error)
          else if found.value.None? then Success(None)
          else Success(Some(Authentication(username.value, [ROLE_USER])))
  }

  /** A caller is authenticated exactly when some stored account carries the
      username the valid token names, and then with that name as principal. */
  lemma AuthenticatedMeansKnownUser(header: Option<string>, validate: string -> bool, extract: string -> Option<string>,
                                    users: map<Id, User>, hi: int)
    requires Decide(header, validate, extract, users, hi).Success?
    requires Decide(header, validate, extract, users, hi).value.Some?
    ensures var name := Decide(header, validate, extract, users, hi).value.value.principal;
      exists k :: 0 <= k < hi && k in users && users[k].username == name
  {
    var name := extract(ResolveToken(header).value).value;
    FoundOneMeaning(users, hi, name);
  }

  /** With unique usernames a valid token for a stored user always
      authenticates, and the filter never throws. */
  lemma UniqueUsersAuthenticate(t: string, validate: string -> bool, extract: string -> Option<string>,
                                users: map<Id, User>, hi: int, k: Id)
    requires UniqueUsernames(users)
    requires validate(t) && extract(t).Some?
    requires 0 <= k < hi && k in users && users[k].username == extract(t).value
    ensures Decide(Some(BEARER_PREFIX + t), validate, extract, users, hi) == Success(Some(Authentication(extract(t).value, [ROLE_USER])))
  {
    ResolveRoundTrip(t);
    UniqueNeverAmbiguous(users, hi, extract(t).value);
    FoundNoneMeaning(users, hi, extract(t).value);
  }

  /** The per-request security context and the filter chain's call count. */
  class SecurityContext {
    var authentication: Option<Authentication>
    var chainCalls: nat

    constructor ()
      ensures authentication == None && chainCalls == 0
    {
      authentication, chainCalls := None, 0;
    }

    /** doFilterInternal: installs the decided authentication, if any, and
        passes the request on down the chain once; an exception from the
        user lookup leaves the filter before the chain is called. */
    method DoFilterInternal(header: Option<string>, validate: string -> bool, extract: string -> Option<string>,
                            users: map<Id, User>, hi: int) returns (r: Result<(), Exception>)
      modifies this
      ensures var d := Decide(header, validate, extract, users, hi);
        && (d.Success? && d.value.Some? ==> authentication == d.value && chainCalls == old(chainCalls) + 1 && r.Success?)
        && (d.Success? && d.value.None? ==> authentication == old(authentication) && chainCalls == old(chainCalls) + 1 && r.Success?)
        && (d.Failure? ==> r == Failure(d.error) && unchanged(this))
      ensures UniqueUsernames(users) ==> r.Success? && chainCalls == old(chainCalls) + 1
    {
      var d := Decide(header, validate, extract, users, hi);
      if d.Failure? {
        return Failure(d.error);
      }
      if d.value.Some? {
        authentication := d.value;
      }
      chainCalls := chainCalls + 1;
      r := Success(());
    }
  }
}
