/** The authentication gate `authenticationMiddleware`: an ordered chain of
    checks on the `Authorization` header that ends in a definite status, and
    on success attaches the token's identity snapshot to the request. The
    token verifier (`jwt.verify`) is an oracle passed in as a function. */
module Authentication {
  import opened Values
  import opened Http

  // ----- `header.split(" ")` -----

  /** JavaScript `s.split(" ")`: every single space separates two parts, so
      n spaces give n + 1 parts, some of them possibly empty. */
  function Split(s: string): seq<string>
  {
    if s == [] then [""]
    else
      var rest := Split(s[1..]);
      if s[0] == ' ' then [""] + rest
      else [[s[0]] + (if rest == [] then "" else rest[0])] + (if rest == [] then [] else rest[1..])
  }

  /** `parts.join(" ")`. */
  function Join(parts: seq<string>): string
  {
    if parts == [] then "" else if |parts| == 1 then parts[0] else parts[0] + " " + Join(parts[1..])
  }

  function Spaces(s: string): nat
  {
    if s == [] then 0 else (if s[0] == ' ' then 1 else 0) + Spaces(s[1..])
  }

  predicate NoSpace(s: string)
  {
    forall i :: 0 <= i < |s| ==> s[i] != ' '
  }

  lemma {:induction false} SplitCount(s: string)
    ensures |Split(s)| == Spaces(s) + 1
    ensures forall k :: 0 <= k < |Split(s)| ==> NoSpace(Split(s)[k])
  {
    if s != [] {
      SplitCount(s[1..]);
      var rest := Split(s[1..]);
      if s[0] != ' ' {
        assert NoSpace([s[0]] + rest[0]) by {
          assert NoSpace(rest[0]);
        }
        assert forall k :: 1 <= k < |Split(s)| ==> Split(s)[k] == rest[k];
      }
    }
  }

  /** Splitting loses nothing: joining the parts gives the header back. */
  lemma {:induction false} SplitJoin(s: string)
    ensures Join(Split(s)) == s
  {
    if s != [] {
      SplitJoin(s[1..]);
      SplitCount(s[1..]);
      var rest := Split(s[1..]);
      if s[0] == ' ' {
        assert s == " " + s[1..];
      } else {
        var head := [s[0]] + rest[0];
        if |rest| == 1 {
          assert s == [s[0]] + s[1..];
        } else {
          assert Split(s)[1..] == rest[1..];
          assert Join(Split(s)) == head + " " + Join(rest[1..]);
          assert s == [s[0]] + s[1..];
        }
      }
    }
  }

  /** A word without spaces followed by one space splits off as a part. */
  lemma {:induction false} SplitWord(w: string, t: string)
    requires NoSpace(w)
    ensures Split(w + " " + t) == [w] + Split(t)
  {
    if w == [] {
      assert w + " " + t == [' '] + t;
      assert (w + " " + t)[1..] == t;
    } else {
      assert (w + " " + t)[1..] == w[1..] + " " + t;
      SplitWord(w[1..], t);
      assert [w[0]] + w[1..] == w;
    }
  }

  lemma {:induction false} SplitNoSpace(w: string)
    requires NoSpace(w)
    ensures Split(w) == [w]
  {
    if w != [] {
      SplitNoSpace(w[1..]);
      assert [w[0]] + w[1..] == w;
    }
  }

  /** Joining parts that contain no space and splitting again gives the parts
      back. */
  lemma {:induction false} JoinSplit(parts: seq<string>)
    requires |parts| >= 1
    requires forall k :: 0 <= k < |parts| ==> NoSpace(parts[k])
    ensures Split(Join(parts)) == parts
  {
    if |parts| == 1 {
      SplitNoSpace(parts[0]);
    } else {
      JoinSplit(parts[1..]);
      SplitWord(parts[0], Join(parts[1..]));
      assert [parts[0]] + parts[1..] == parts;
    }
  }

  // ----- The gate -----

  /** What `jwt.verify(token, secret)` does: throw (bad signature, malformed
      or expired token, empty secret) or return the decoded payload, which is
      an object or a string. */
  datatype Verified = Threw | Decoded(payload: Value)

  /** The identity attached as `req.usuario`: the three claims copied from
      the token payload as they are. */
  datatype Usuario = Usuario(id: Value, email: Value, rol: Value)

  datatype AuthOutcome = Reject(status: int, error: string) | Accept(usuario: Usuario)

  /** `parts[i]`: undefined past the end. */
  function PartAt(parts: seq<string>, i: nat): Option<string>
  {
    if i < |parts| then Some(parts[i]) else None
  }

  /** The payload passes the claims check: an object holding `id`, `email`
      and `rol`. */
  predicate HasClaims(payload: Value)
  {
    payload.Obj? && "id" in payload.props && "email" in payload.props && "rol" in payload.props
  }

  /** The decision `authenticationMiddleware` takes, in the order of its
      checks. */
  function Authenticate(header: Option<string>, secret: Option<string>, verify: (string, string) -> Verified): AuthOutcome
  {
    if header.None? || header.value == "" then Reject(401, "Token no proporcionado")
    else
      var parts := Split(header.value);
      if |parts| != 2 then Reject(401, "Formato de token inválido")
      else if secret.None? then Reject(500, "Error interno en el servidor.")
      else
        var token := PartAt(parts, 1);
        if token.None? then Reject(403, "Token indefinido.")
        else
          match verify(token.value, secret.value)
          case Threw => Reject(403, "Token inválido o expirado")
          case Decoded(payload) =>
            if !HasClaims(payload) then Reject(403, "Token inválido")
            else Accept(Usuario(payload.props["id"], payload.props["email"], payload.props["rol"]))
  }

  /** The request object; the gate writes its `usuario` field. */
  class Request {
    const authorization: Option<string>
    var usuario: Option<Usuario>

    constructor (authorization: Option<string>)
      ensures this.authorization == authorization && usuario == None
    {
      this.authorization := authorization;
      usuario := None;
    }
  }

  /** `authenticationMiddleware(req, res, next)`: the result is `Next` when
      `next()` is called and the error response otherwise; only success
      writes `req.usuario`, and it writes exactly the snapshot. */
  method AuthenticationMiddleware(req: Request, secret: Option<string>, verify: (string, string) -> Verified)
    returns (r: GateResult)
    modifies req`usuario
    ensures Authenticate(req.authorization, secret, verify).Accept? ==>
              r == Next && req.usuario == Some(Authenticate(req.authorization, secret, verify).usuario)
    ensures Authenticate(req.authorization, secret, verify).Reject? ==>
              r == Respond(Authenticate(req.authorization, secret, verify).status,
                           Authenticate(req.authorization, secret, verify).error)
              && req.usuario == old(req.usuario)
  {
    var authHeader := req.authorization;
    if authHeader.None? || authHeader.value == "" {
      return Respond(401, "Token no proporcionado");
    }
    var parts := Split(authHeader.value);
    if |parts| != 2 {
      return Respond(401, "Formato de token inválido");
    }
    var token := PartAt(parts, 1);
    if secret.None? {
      return Respond(500, "Error interno en el servidor.");
    }
    if token.None? {
      return Respond(403, "Token indefinido.");
    }
    var decoded := verify(token.value, secret.value);
    if decoded.Threw? {
      return Respond(403, "Token inválido o expirado");
    }
    if !HasClaims(decoded.payload) {
      return Respond(403, "Token inválido");
    }
    var payload := decoded.payload.props;
    req.usuario := Some(Usuario(payload["id"], payload["email"], payload["rol"]));
    r := Next;
  }

  // ----- Properties of the decision -----

  /** A missing or empty header is answered 401 "Token no proporcionado",
      and nothing else is. */
  lemma NoHeader(header: Option<string>, secret: Option<string>, verify: (string, string) -> Verified)
    ensures Authenticate(header, secret, verify) == Reject(401, "Token no proporcionado")
            <==> header.None? || header.value == ""
  {
  }

  /** A header without exactly one space is answered 401 whatever the
      secret and the token are: a double space is rejected too. */
  lemma BadShape(h: string, secret: Option<string>, verify: (string, string) -> Verified)
    requires h != "" && Spaces(h) != 1
    ensures Authenticate(Some(h), secret, verify) == Reject(401, "Formato de token inválido")
  {
    SplitCount(h);
  }

  lemma DoubleSpace(scheme: string, token: string, secret: Option<string>, verify: (string, string) -> Verified)
    ensures Authenticate(Some(scheme + "  " + token), secret, verify) == Reject(401, "Formato de token inválido")
  {
    SpacesAppend(scheme + "  ", token);
    SpacesAppend(scheme, "  ");
    assert Spaces("  ") == 2;
    BadShape(scheme + "  " + token, secret, verify);
  }

  lemma {:induction false} SpacesAppend(a: string, b: string)
    ensures Spaces(a + b) == Spaces(a) + Spaces(b)
  {
    if a == [] {
      assert a + b == b;
    } else {
      assert (a + b)[1..] == a[1..] + b;
      SpacesAppend(a[1..], b);
    }
  }

  /** The scheme word is never inspected: any word in place of "Bearer"
      leads to the same outcome. */
  lemma SchemeNeverInspected(scheme: string, token: string, secret: Option<string>, verify: (string, string) -> Verified)
    requires NoSpace(scheme) && NoSpace(token)
    ensures Authenticate(Some(scheme + " " + token), secret, verify)
         == Authenticate(Some("Bearer " + token), secret, verify)
  {
    assert Join([scheme, token]) == scheme + " " + token;
    assert Join(["Bearer", token]) == "Bearer " + token;
    JoinSplit([scheme, token]);
    JoinSplit(["Bearer", token]);
  }

  /** A missing secret gives 500, after the shape check and before the
      verifier is consulted. */
  lemma MissingSecret(h: string, verify: (string, string) -> Verified)
    requires h != "" && Spaces(h) == 1
    ensures Authenticate(Some(h), None, verify) == Reject(500, "Error interno en el servidor.")
  {
    SplitCount(h);
  }

  /** Once the header has two parts the second one exists, so the
      "Token indefinido." branch is never taken. */
  lemma TokenIndefinidoUnreachable(header: Option<string>, secret: Option<string>, verify: (string, string) -> Verified)
    ensures Authenticate(header, secret, verify) != Reject(403, "Token indefinido.")
  {
  }

  /** Every failure of the verifier (signature, expiry, malformed token)
      collapses into the same 403 answer. */
  lemma VerifyFailure(scheme: string, token: string, secret: string, verify: (string, string) -> Verified)
    requires NoSpace(scheme) && NoSpace(token)
    requires verify(token, secret) == Threw
    ensures Authenticate(Some(scheme + " " + token), Some(secret), verify) == Reject(403, "Token inválido o expirado")
  {
    assert Join([scheme, token]) == scheme + " " + token;
    JoinSplit([scheme, token]);
  }

  /** The gate accepts exactly when the header is two space-separated parts,
      a secret is configured, and the verifier returns an object carrying
      id, email and rol; the identity is then those three claims as they are. */
  lemma AcceptIff(header: Option<string>, secret: Option<string>, verify: (string, string) -> Verified)
    ensures Authenticate(header, secret, verify).Accept? <==>
      && header.Some? && header.value != ""
      && |Split(header.value)| == 2
      && secret.Some?
      && verify(Split(header.value)[1], secret.value).Decoded?
      && HasClaims(verify(Split(header.value)[1], secret.value).payload)
    ensures Authenticate(header, secret, verify).Accept? ==>
      var p := verify(Split(header.value)[1], secret.value).payload.props;
      Authenticate(header, secret, verify).usuario == Usuario(p["id"], p["email"], p["rol"])
  {
  }

  /** A payload that is a string, or an object missing one of the claims, is
      answered 403 "Token inválido". */
  lemma ClaimsIncomplete(scheme: string, token: string, secret: string, verify: (string, string) -> Verified)
    requires NoSpace(scheme) && NoSpace(token)
    requires verify(token, secret).Decoded? && !HasClaims(verify(token, secret).payload)
    ensures Authenticate(Some(scheme + " " + token), Some(secret), verify) == Reject(403, "Token inválido")
  {
    assert Join([scheme, token]) == scheme + " " + token;
    JoinSplit([scheme, token]);
  }
}
