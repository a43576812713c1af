/** The storefront's authentication context: the signed-in user, the loading flag
    and the stored token, changed by mounting, `loadUser`, `login`, `register` and
    `logout`. */
module AuthState {
  import opened Wrappers
  import opened ClientApi

  datatype User = User(id: string, email: string, firstName: string, lastName: string)

  /** The `data` of a login or registration response. */
  datatype AuthData = AuthData(user: User, token: string)

  datatype RegisterData = RegisterData(email: string, password: string, firstName: string, lastName: string)

  /** The requests the context makes to the auth API. */
  datatype AuthCall = GetProfile | Login(email: string, password: string) | Register(data: RegisterData) | Logout

  /** A stored token is used only when it is truthy. */
  predicate HasToken(token: Option<string>) {
    token.Some? && token.value != ""
  }

  /** The user a login or registration response signs in, if any. */
  function SignedIn(response: Response<AuthData>): (r: Option<User>)
    ensures r.Some? <==> Payload(response).Some?
    ensures r.Some? ==> r.value == Payload(response).value.user
  {
    match Payload(response)
    case Some(d) => Some(d.user)
    case None => None
  }

  class AuthProvider {
    var user: Option<User>
    var loading: bool
    /** The token as this context sets it: read at start-up and cleared by `loadUser`;
        what `lib/api/auth.ts` stores or clears on login, registration and logout is
        not part of it. */
    var token: Option<string>
    var calls: seq<AuthCall>

    constructor(storedToken: Option<string>)
      ensures user.None? && loading && token == storedToken && calls == []
    {
      user := None;
      loading := true;
      token := storedToken;
      calls := [];
    }

    /** `isAuthenticated: !!user`. */
    function IsAuthenticated(): bool
      reads this
    {
      user.Some?
    }

    /** `loadUser`: a profile that does not come back clears the token. */
    method LoadUser(profile: Response<User>)
      modifies this
      ensures calls == old(calls) + [GetProfile]
      ensures user == if Payload(profile).Some? then Payload(profile) else old(user)
      ensures token == if Payload(profile).Some? then old(token) else None
      ensures !loading
    {
      calls := calls + [GetProfile];
      var data := Payload(profile);
      if data.Some? {
        user := data;
      } else {
        token := None;
      }
      loading := false;
    }

    /** The mount effect: load the profile only when a token is stored. */
    method Mount(profile: Response<User>)
      modifies this
      ensures !loading
      ensures !HasToken(old(token)) ==> calls == old(calls) && user == old(user) && token == old(token)
      ensures HasToken(old(token)) ==> calls == old(calls) + [GetProfile]
      ensures HasToken(old(token)) && Payload(profile).Some? ==> user == Payload(profile) && token == old(token)
      ensures HasToken(old(token)) && Payload(profile).None? ==> user == old(user) && token.None?
    {
      if HasToken(token) {
        LoadUser(profile);
      } else {
        loading := false;
      }
    }

    /** `login`: true exactly when the response succeeded with data; only then is the
        user set. */
    method SignIn(email: string, password: string, response: Response<AuthData>) returns (ok: bool)
      modifies this
      ensures ok <==> SignedIn(response).Some?
      ensures user == if ok then SignedIn(response) else old(user)
      ensures calls == old(calls) + [Login(email, password)]
      ensures token == old(token) && loading == old(loading)
    {
      calls := calls + [Login(email, password)];
      var signedIn := SignedIn(response);
      if signedIn.Some? {
        user := signedIn;
        return true;
      }
      return false;
    }

    /** `register`, with the same outcome rule as `login`. */
    method SignUp(data: RegisterData, response: Response<AuthData>) returns (ok: bool)
      modifies this
      ensures ok <==> SignedIn(response).Some?
      ensures user == if ok then SignedIn(response) else old(user)
      ensures calls == old(calls) + [Register(data)]
      ensures token == old(token) && loading == old(loading)
    {
      calls := calls + [Register(data)];
      var signedIn := SignedIn(response);
      if signedIn.Some? {
        user := signedIn;
        return true;
      }
      return false;
    }

    /** `logout`. */
    method SignOut()
      modifies this
      ensures user.None? && !IsAuthenticated()
      ensures calls == old(calls) + [Logout]
      ensures token == old(token) && loading == old(loading)
    {
      calls := calls + [Logout];
      user := None;
    }
  }
}
