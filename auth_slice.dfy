/** The auth slice of the client store: the locally registered users, the
    current user, whether someone is logged in, and the buyer/seller mode. */
module AuthSlice {
  import opened JsValues
  import opened Seqs

  const BUYER: string := "buyer"

  /** The user `signup` stores: `{ ...payload, id, isSeller: false }`. */
  function NewUser(payload: JsObject, id: string): (u: JsObject)
    ensures u.Keys == payload.Keys + {"id", "isSeller"}
    ensures u["id"] == JStr(id) && u["isSeller"] == JBool(false)
    ensures forall k :: k in payload && k != "id" && k != "isSeller" ==> u[k] == payload[k]
  {
    payload + map["id" := JStr(id), "isSeller" := JBool(false)]
  }

  /** The test of `login`: `u.email === payload.email && u.password === payload.password`,
      where two missing fields are equal. */
  predicate SameCredentials(u: JsObject, payload: JsObject) {
    Get(u, "email") == Get(payload, "email") && Get(u, "password") == Get(payload, "password")
  }

  function CredentialsOf(payload: JsObject): JsObject -> bool {
    (u: JsObject) => SameCredentials(u, payload)
  }

  /** The position of the first user with the payload's credentials (`find`), or |users|. */
  function MatchingUser(users: seq<JsObject>, payload: JsObject): (k: nat)
    ensures k <= |users|
    ensures k < |users| ==> SameCredentials(users[k], payload)
    ensures forall j :: 0 <= j < k ==> !SameCredentials(users[j], payload)
  {
    IndexWhere(users, CredentialsOf(payload))
  }

  /** A user who signed up with a payload has that payload's credentials. */
  lemma SignupCredentials(payload: JsObject, id: string)
    ensures SameCredentials(NewUser(payload, id), payload)
  {
    var u := NewUser(payload, id);
    assert "email" in payload <==> "email" in u;
    assert "password" in payload <==> "password" in u;
  }

  /** The user `updateSellerDetails` leaves: `{ ...user, ...payload }`, with no user an empty object. */
  function MergedUser(user: Option<JsObject>, payload: JsObject): (u: JsObject)
    ensures u.Keys == payload.Keys + (if user.Some? then user.value.Keys else {})
    ensures forall k :: k in payload ==> u[k] == payload[k]
    ensures user.Some? ==> forall k :: k in user.value && k !in payload ==> u[k] == user.value[k]
  {
    (if user.Some? then user.value else map[]) + payload
  }

  /** The auth slice's state. */
  class AuthStore {
    var users: seq<JsObject>
    var user: Option<JsObject>
    var isAuthenticated: bool
    var userMode: string

    /** Someone logged in means there is a current user. */
    ghost predicate Valid()
      reads this
    {
      isAuthenticated ==> user.Some?
    }

    /** The initial state with nothing stored (restoring a saved session is not modelled). */
    constructor ()
      ensures Valid()
      ensures users == [] && user == None && !isAuthenticated && userMode == BUYER
    {
      users := [];
      user := None;
      isAuthenticated := false;
      userMode := BUYER;
    }

    /** `signup(payload)`; `id` is the generated user id. */
    method Signup(payload: JsObject, id: string)
      requires Valid()
      modifies this
      ensures Valid()
      ensures users == old(users) + [NewUser(payload, id)]
      ensures user == Some(NewUser(payload, id)) && isAuthenticated
      ensures userMode == old(userMode)
    {
      var newUser := payload + map["id" := JStr(id), "isSeller" := JBool(false)];
      users := users + [newUser];
      user := Some(newUser);
      isAuthenticated := true;
    }

    /** `login(payload)`: the first user with those credentials, or no change at all. */
    method Login(payload: JsObject)
      requires Valid()
      modifies this
      ensures Valid()
      ensures users == old(users) && userMode == old(userMode)
      ensures MatchingUser(users, payload) < |users| ==>
                user == Some(users[MatchingUser(users, payload)]) && isAuthenticated
      ensures MatchingUser(users, payload) == |users| ==>
                user == old(user) && isAuthenticated == old(isAuthenticated)
    {
      var k := MatchingUser(users, payload);
      if k < |users| {
        user := Some(users[k]);
        isAuthenticated := true;
      }
    }

    /** `logout`. */
    method Logout()
      modifies this
      ensures Valid()
      ensures user == None && !isAuthenticated
      ensures users == old(users) && userMode == old(userMode)
    {
      user := None;
      isAuthenticated := false;
    }

    /** `switchMode(mode)`. */
    method SwitchMode(mode: string)
      modifies this`userMode
      ensures userMode == mode
    {
      userMode := mode;
    }

    /** `updateSellerDetails(payload)`: the current user only; the user list keeps the old record. */
    method UpdateSellerDetails(payload: JsObject)
      requires Valid()
      modifies this`user
      ensures Valid()
      ensures user == Some(MergedUser(old(user), payload))
    {
      user := Some((if user.Some? then user.value else map[]) + payload);
    }
  }

  /** Signing up, logging out and logging in with the same payload logs in a
      user with those credentials. */
  method SignupLogoutLogin(auth: AuthStore, payload: JsObject, id: string)
    requires auth.Valid()
    modifies auth
    ensures auth.isAuthenticated && auth.user.Some? && SameCredentials(auth.user.value, payload)
  {
    auth.Signup(payload, id);
    SignupCredentials(payload, id);
    assert SameCredentials(auth.users[|auth.users| - 1], payload);
    auth.Logout();
    auth.Login(payload);
  }

  /** Seller details merged into the current user are gone after logging out and
      back in, because the user list still holds the record from sign-up. */
  method SellerDetailsLostOnRelogin(auth: AuthStore, payload: JsObject, id: string, details: JsObject)
    requires auth.Valid() && auth.users == []
    modifies auth
    ensures auth.user == Some(NewUser(payload, id))
    ensures auth.user.value["isSeller"] == JBool(false)
  {
    auth.Signup(payload, id);
    auth.UpdateSellerDetails(details);
    auth.Logout();
    SignupCredentials(payload, id);
    auth.Login(payload);
  }
}
