/** The authentication middleware: pick the authorization header, take the token out of a
    `Bearer ` header, have it verified and the user looked up, and either let the request on
    with `req.user` set or stop it with a 403. Signature verification and the user lookup are
    foreign calls; they enter as oracles that may fail. */
module Auth {
  import opened Js
  import opened Errors

  const BearerPrefix: string := "Bearer "
  const Unauthorized: string := "Unauthorized"
  const Forbidden: int := 403

  /** What `jwt.verify` does with a token: decode it to a payload carrying a user id, or throw. */
  datatype Verification = Decoded(id: string) | VerifyThrew(message: string)

  /** What `UserModel.findById(..)` resolves to: the user document (null when absent), or a
      thrown error. Only the user's id is kept. */
  datatype UserLookup = Found(user: Option<string>) | LookupThrew(message: string)

  /** Either `next()` is called once with `req.user` set, or `next(error)` is. */
  datatype AuthOutcome = Proceed(user: Option<string>) | Reject(error: HttpError)

  /** `req.headers.authorization || req.headers.Authorization` */
  function SelectHeader(lower: Option<string>, upper: Option<string>): Option<string> {
    if Truthy(lower) then lower else upper
  }

  /** `token && token.startsWith("Bearer ")` */
  predicate HasBearer(header: Option<string>) {
    Truthy(header) && StartsWith(header.value, BearerPrefix)
  }

  /** `token.split(" ")[1]` for a header starting with "Bearer ": the text after the prefix up
      to (not including) the next space, or to the end. */
  function BearerToken(header: string): (token: string)
    requires StartsWith(header, BearerPrefix)
    ensures var rest := header[|BearerPrefix|..];
            token <= rest && ' ' !in token && (|token| == |rest| || rest[|token|] == ' ')
  {
    assert header == "Bearer" + [' '] + header[|BearerPrefix|..];
    SplitAfterWord("Bearer", ' ', header[|BearerPrefix|..]);
    Split(header, ' ')[1]
  }

  /** A second space right after the prefix gives the empty token. */
  lemma DoubleSpaceGivesEmptyToken(rest: string)
    ensures BearerToken(BearerPrefix + " " + rest) == ""
  {
    var header := BearerPrefix + " " + rest;
    assert header[|BearerPrefix|..] == " " + rest;
    assert (" " + rest)[0] == ' ';
  }

  /** `authMiddleware` */
  function Authenticate(lower: Option<string>, upper: Option<string>,
                        verify: string -> Verification, findById: string -> UserLookup): (out: AuthOutcome)
    ensures out.Reject? ==> out.error.code == Some(Forbidden)
    ensures !HasBearer(SelectHeader(lower, upper)) ==> out == Reject(Raise(Unauthorized, Forbidden))
    ensures HasBearer(SelectHeader(lower, upper)) ==>
      var v := verify(BearerToken(SelectHeader(lower, upper).value));
      && (v.VerifyThrew? ==> out == Reject(Raise(v.message, Forbidden)))
      && (v.Decoded? && findById(v.id).LookupThrew? ==> out == Reject(Raise(findById(v.id).message, Forbidden)))
      && (v.Decoded? && findById(v.id).Found? ==> out == Proceed(findById(v.id).user))
  {
    var token := SelectHeader(lower, upper);
    if HasBearer(token) then
      match verify(BearerToken(token.value))
      case VerifyThrew(m) => Reject(Raise(m, Forbidden))
      case Decoded(id) =>
        match findById(id)
        case LookupThrew(m) => Reject(Raise(m, Forbidden))
        case Found(user) => Proceed(user)
    else
      Reject(Raise(Unauthorized, Forbidden))
  }

  /** The request goes on exactly when the selected header has the prefix and both oracles
      succeed; `req.user` is then whatever the lookup of the decoded id returned. */
  lemma ProceedExactlyWhenVerified(lower: Option<string>, upper: Option<string>,
                                   verify: string -> Verification, findById: string -> UserLookup)
    ensures var out := Authenticate(lower, upper, verify, findById);
            var h := SelectHeader(lower, upper);
            out.Proceed? <==>
              HasBearer(h) && verify(BearerToken(h.value)).Decoded?
              && findById(verify(BearerToken(h.value)).id).Found?
  {
  }

  /** The lower-case header wins whenever it is truthy; the capitalised one is only a fallback. */
  lemma LowerCaseHeaderWins(lower: string, upper: Option<string>,
                            verify: string -> Verification, findById: string -> UserLookup)
    requires lower != ""
    ensures Authenticate(Some(lower), upper, verify, findById) == Authenticate(Some(lower), None, verify, findById)
  {
  }
}
