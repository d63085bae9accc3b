/** frontend/src/contexts/AuthContext.js: `authReducer`. The state is the
    plain object `{ user, isAuthenticated, loading, token }`; `undefined`
    is modelled as `null`. */
module AuthContext {

  import opened Json

  /** A dispatched action: `{ type, payload }`. */
  datatype Action = Action(kind: string, payload: Value)

  const LoginStart := "LOGIN_START"
  const LoginSuccess := "LOGIN_SUCCESS"
  const LoginFailure := "LOGIN_FAILURE"
  const Logout := "LOGOUT"
  const SetLoading := "SET_LOADING"
  const UpdateUser := "UPDATE_USER"

  /** `initialState`, with the token read from `localStorage`. */
  function InitialState(storedToken: Value): (s: Object)
    ensures s.Keys == AuthKeys
    ensures s["user"] == Null && s["isAuthenticated"] == Bool(false) && s["loading"] == Bool(true) && s["token"] == storedToken
  {
    map["user" := Null, "isAuthenticated" := Bool(false), "loading" := Bool(true), "token" := storedToken]
  }

  /** `action.payload.k`, `null` when the payload is not an object or lacks it. */
  function PayloadField(payload: Value, k: string): Value {
    if payload.Obj? && k in payload.fields then payload.fields[k] else Null
  }

  /** The fields `LOGIN_FAILURE` and `LOGOUT` overwrite. */
  function SignedOut(state: Object): Object {
    state["user" := Null]["token" := Null]["isAuthenticated" := Bool(false)]["loading" := Bool(false)]
  }

  /** `authReducer` */
  function Reduce(state: Object, action: Action): Object {
    var t := action.kind;
    if t == LoginStart then state["loading" := Bool(true)]
    else if t == LoginSuccess then
      state["user" := PayloadField(action.payload, "user")]["token" := PayloadField(action.payload, "token")]
           ["isAuthenticated" := Bool(true)]["loading" := Bool(false)]
    else if t == LoginFailure || t == Logout then SignedOut(state)
    else if t == SetLoading then state["loading" := action.payload]
    else if t == UpdateUser then
      var user := if "user" in state then SpreadFields(state["user"]) else map[];
      state["user" := Obj(user + SpreadFields(action.payload))]
    else state
  }

  /** The four fields of the authentication state. */
  const AuthKeys: set<string> := {"user", "isAuthenticated", "loading", "token"}

  /** `LOGIN_START` sets only `loading`. */
  lemma {:induction false} LoginStartSetsLoading(state: Object, payload: Value)
    ensures var r := Reduce(state, Action(LoginStart, payload));
      r["loading"] == Bool(true) && forall k :: k != "loading" ==> (k in r <==> k in state) && (k in state ==> r[k] == state[k])
  {
  }

  /** `LOGIN_SUCCESS` takes user and token from the payload and marks the
      session authenticated and loaded; nothing else changes. */
  lemma {:induction false} LoginSuccessAuthenticates(state: Object, user: Value, token: Value)
    ensures var r := Reduce(state, Action(LoginSuccess, Obj(map["user" := user, "token" := token])));
      && r["user"] == user && r["token"] == token && r["isAuthenticated"] == Bool(true) && r["loading"] == Bool(false)
      && forall k :: k !in AuthKeys ==> (k in r <==> k in state) && (k in state ==> r[k] == state[k])
  {
    assert LoginSuccess != LoginStart;
  }

  /** `LOGIN_FAILURE` and `LOGOUT` lead to the same signed-out state, whatever
      the payloads, and repeating either changes nothing more. */
  lemma {:induction false} FailureIsLogout(state: Object, p1: Value, p2: Value)
    ensures Reduce(state, Action(LoginFailure, p1)) == Reduce(state, Action(Logout, p2)) == SignedOut(state)
    ensures var r := SignedOut(state);
      && r["user"] == Null && r["token"] == Null && r["isAuthenticated"] == Bool(false) && r["loading"] == Bool(false)
      && Reduce(r, Action(Logout, p2)) == r
      && forall k :: k !in AuthKeys ==> (k in r <==> k in state) && (k in state ==> r[k] == state[k])
  {
    assert LoginFailure != LoginStart && LoginFailure != LoginSuccess;
    assert Logout != LoginStart && Logout != LoginSuccess;
    var r := SignedOut(state);
    assert SignedOut(r) == r;
  }

  /** `SET_LOADING` changes only `loading`; `UPDATE_USER` merges the payload
      into `user` and leaves the authentication fields alone. */
  lemma {:induction false} LoadingAndUserUpdates(state: Object, v: Value, payload: map<string, Value>)
    ensures var r := Reduce(state, Action(SetLoading, v));
      r["loading"] == v && forall k :: k != "loading" ==> (k in r <==> k in state) && (k in state ==> r[k] == state[k])
    ensures var r := Reduce(state, Action(UpdateUser, Obj(payload)));
      && r["user"].Obj?
      && (forall f :: f in payload ==> f in r["user"].fields && r["user"].fields[f] == payload[f])
      && ("user" in state && state["user"].Obj? ==>
            forall f :: f in state["user"].fields && f !in payload ==> f in r["user"].fields && r["user"].fields[f] == state["user"].fields[f])
      && forall k :: k != "user" ==> (k in r <==> k in state) && (k in state ==> r[k] == state[k])
  {
    assert SetLoading != LoginStart && SetLoading != LoginSuccess && SetLoading != LoginFailure && SetLoading != Logout;
    assert UpdateUser != LoginStart && UpdateUser != LoginSuccess && UpdateUser != LoginFailure && UpdateUser != Logout && UpdateUser != SetLoading;
  }

  /** Unknown actions return the state itself. */
  lemma {:induction false} UnknownUnchanged(state: Object, action: Action)
    requires action.kind !in {LoginStart, LoginSuccess, LoginFailure, Logout, SetLoading, UpdateUser}
    ensures Reduce(state, action) == state
  {
  }
}
