/** The token service (jsonwebtoken at index.js:102), modelled abstractly: a
    token is the signed payload {id, role} together with the key it was signed
    with.  The key is process.env.JWT_KEY, a configuration parameter.  The
    guard that reads the bearer token of a request (checkAuth) is not part of
    this model; Authenticate states the part of its contract the handlers rely
    on. */
module Tokens {
  import opened Wrappers

  /** The token payload, and the identity checkAuth attaches to a request. */
  datatype Identity = Identity(id: nat, role: string)

  datatype Token = Token(payload: Identity, key: string)

  /** jwt.sign(payload, key): the token verifies, under that key only, as
      exactly the payload it was issued for. */
  function Sign(key: string, payload: Identity): (t: Token)
    ensures Verify(key, t) == Some(payload)
    ensures forall other :: Verify(other, t).Some? ==> other == key
  {
    Token(payload, key)
  }

  /** jwt.verify(token, key): the payload if the signature checks, else nothing. */
  function Verify(key: string, t: Token): Option<Identity> {
    if t.key == key then Some(t.payload) else None
  }

  /** The identity a request carries: none without a bearer token, the payload
      of a token signed with the server's key, and none for a token signed
      with any other key. */
  function Authenticate(key: string, bearer: Option<Token>): (caller: Option<Identity>)
    ensures bearer.None? ==> caller.None?
    ensures forall p :: bearer == Some(Sign(key, p)) ==> caller == Some(p)
    ensures forall k, p :: k != key && bearer == Some(Sign(k, p)) ==> caller.None?
  {
    if bearer.None? then None else Verify(key, bearer.value)
  }

  /** A token issued for A under the server's key authenticates as A, and one
      signed with another key authenticates as nobody. */
  lemma NoImpersonation(key: string, other: string, a: Identity)
    ensures Authenticate(key, Some(Sign(key, a))) == Some(a)
    ensures other != key ==> Authenticate(key, Some(Sign(other, a))).None?
  {
  }
}
