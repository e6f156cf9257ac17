/** The authentication middleware (backend/internal/interfaces/http/middleware/auth.go):
    the Authorization header must read "Bearer <token>" with the token accepted
    by the token validator; the user's id and e-mail are then put in the request
    context. Token validation (signature, expiry) is a parameter: it yields the
    token's claims, or None when the validator reports an error. */
module Auth {
  import opened Wrappers
  import opened Text

  /** The claims a valid token carries. */
  datatype Claims = Claims(userId: int, email: string)

  /** A value stored in the request context. */
  datatype ContextValue = IntValue(i: int) | StringValue(s: string)

  datatype Outcome =
    | Continue(claims: Claims)
    | Reject(status: int, error: string, message: string)

  const Unauthorized := 401

  const MissingHeader := "Authorization header required"
  const BadFormat := "Invalid authorization header format"
  const BadToken := "Invalid or expired token"

  /** The decision on one request's Authorization header. */
  function Authenticate(header: string, validate: string -> Option<Claims>): Outcome {
    if header == "" then Reject(Unauthorized, "Unauthorized", MissingHeader)
    else
      var parts := Split(header, ' ');
      if |parts| != 2 || parts[0] != "Bearer" then Reject(Unauthorized, "Unauthorized", BadFormat)
      else match validate(parts[1])
        case None => Reject(Unauthorized, "Unauthorized", BadToken)
        case Some(claims) => Continue(claims)
  }

  /** The middleware: on success the user's id and e-mail are stored in the
      request context and the chain continues; otherwise the context is left
      alone and the request is answered 401. */
  method Handle(header: string, validate: string -> Option<Claims>, context0: map<string, ContextValue>)
    returns (context: map<string, ContextValue>, outcome: Outcome)
    ensures outcome == Authenticate(header, validate)
    ensures outcome.Continue? ==>
      context == context0["user_id" := IntValue(outcome.claims.userId)]["user_email" := StringValue(outcome.claims.email)]
    ensures outcome.Reject? ==> context == context0 && outcome.status == Unauthorized
  {
    context := context0;
    if header == "" {
      return context, Reject(Unauthorized, "Unauthorized", MissingHeader);
    }
    var parts := Split(header, ' ');
    if |parts| != 2 || parts[0] != "Bearer" {
      return context, Reject(Unauthorized, "Unauthorized", BadFormat);
    }
    var token := parts[1];
    var claims := validate(token);
    if claims.None? {
      return context, Reject(Unauthorized, "Unauthorized", BadToken);
    }
    context := context["user_id" := IntValue(claims.value.userId)];
    context := context["user_email" := StringValue(claims.value.email)];
    return context, Continue(claims.value);
  }

  /** The header has the "Bearer <token>" form exactly when it is "Bearer", one
      space, and a token containing no space. */
  lemma BearerForm(header: string, token: string)
    ensures Split(header, ' ') == ["Bearer", token] <==> header == "Bearer " + token && ' ' !in token
  {
    if Split(header, ' ') == ["Bearer", token] {
      SplitJoin(header, ' ');
      assert Join(["Bearer", token], ' ') == "Bearer" + [' '] + token;
      assert ' ' !in Split(header, ' ')[1];
    }
    if header == "Bearer " + token && ' ' !in token {
      assert header == "Bearer" + [' '] + token;
      SplitAfterFirst("Bearer", ' ', token);
      SplitNoSeparator(token, ' ');
    }
  }

  /** A request gets through exactly when its header is "Bearer " followed by a
      space-free token the validator accepts, and then it carries that token's
      claims. */
  lemma AuthenticateAccepts(header: string, validate: string -> Option<Claims>)
    ensures Authenticate(header, validate).Continue? <==>
      exists token :: header == "Bearer " + token && ' ' !in token && validate(token).Some?
    ensures forall token :: header == "Bearer " + token && ' ' !in token && validate(token).Some? ==>
      Authenticate(header, validate) == Continue(validate(token).value)
  {
    var parts := Split(header, ' ');
    if Authenticate(header, validate).Continue? {
      assert parts == ["Bearer", parts[1]];
      BearerForm(header, parts[1]);
    }
    forall token | header == "Bearer " + token && ' ' !in token && validate(token).Some?
      ensures Authenticate(header, validate) == Continue(validate(token).value)
    {
      BearerForm(header, token);
    }
  }

  /** The three ways a request is refused, each answered 401. */
  lemma AuthenticateRejects(header: string, validate: string -> Option<Claims>)
    ensures header == "" ==> Authenticate(header, validate) == Reject(Unauthorized, "Unauthorized", MissingHeader)
    ensures header != "" && (forall token :: header != "Bearer " + token || ' ' in token) ==>
      Authenticate(header, validate) == Reject(Unauthorized, "Unauthorized", BadFormat)
    ensures forall token :: header == "Bearer " + token && ' ' !in token && validate(token).None? ==>
      Authenticate(header, validate) == Reject(Unauthorized, "Unauthorized", BadToken)
  {
    var parts := Split(header, ' ');
    if header != "" && |parts| == 2 && parts[0] == "Bearer" {
      assert parts == ["Bearer", parts[1]];
      BearerForm(header, parts[1]);
    }
    forall token | header == "Bearer " + token && ' ' !in token && validate(token).None?
      ensures Authenticate(header, validate) == Reject(Unauthorized, "Unauthorized", BadToken)
    {
      BearerForm(header, token);
    }
  }

  /** The scheme is matched case-sensitively. */
  lemma LowercaseSchemeRejected(validate: string -> Option<Claims>)
    ensures Authenticate("bearer abc", validate) == Reject(Unauthorized, "Unauthorized", BadFormat)
  {
    var h := "bearer abc";
    assert h == "bearer" + [' '] + "abc";
    SplitAfterFirst("bearer", ' ', "abc");
    SplitNoSeparator("abc", ' ');
    assert Split(h, ' ')[0] == "bearer";
  }

  /** A doubled space makes three parts. */
  lemma DoubleSpaceRejected(validate: string -> Option<Claims>)
    ensures Authenticate("Bearer  abc", validate) == Reject(Unauthorized, "Unauthorized", BadFormat)
  {
    var h := "Bearer  abc";
    assert h == "Bearer" + [' '] + " abc";
    assert " abc" == "" + [' '] + "abc";
    SplitAfterFirst("Bearer", ' ', " abc");
    SplitAfterFirst("", ' ', "abc");
    assert |Split(h, ' ')| == 1 + |Split(" abc", ' ')|;
  }

  /** The scheme alone, without a separator, is one part. */
  lemma SchemeAloneRejected(validate: string -> Option<Claims>)
    ensures Authenticate("Bearer", validate) == Reject(Unauthorized, "Unauthorized", BadFormat)
  {
    SplitNoSeparator("Bearer", ' ');
  }

  /** "Bearer " with nothing after it hands the empty token to the validator. */
  lemma EmptyTokenValidated(validate: string -> Option<Claims>)
    ensures Authenticate("Bearer ", validate) == match validate("")
      case None => Reject(Unauthorized, "Unauthorized", BadToken)
      case Some(c) => Continue(c)
  {
    BearerForm("Bearer ", "");
  }
}
