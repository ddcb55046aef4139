/**
 * The five request handlers of server/app.py, specified as pure functions over
 * a value of the whole state: the rows of both tables, the session cookie's
 * `user_id` and the store's id counters. Each handler maps a state and a
 * request to the next state and an HTTP response.
 */
module Api {
  import opened Wrappers
  import opened Models

  /** Request bodies; a key absent from the JSON object is None. */
  datatype SignupRequest = SignupRequest(
    username: Option<string>,
    password: Option<string>,
    imageUrl: Option<string>,
    bio: Option<string>)

  datatype LoginRequest = LoginRequest(username: Option<string>, password: Option<string>)

  /** `userId` is whatever owner the client names; the handler never reads it. */
  datatype RecipeRequest = RecipeRequest(
    title: Option<string>,
    instructions: Option<string>,
    minutesToComplete: Option<int>,
    userId: Option<int>)

  /** The public serialisation of a user: it has no place for a password or a hash. */
  datatype UserJson = UserJson(id: int, username: string, imageUrl: Option<string>, bio: Option<string>)

  datatype RecipeJson = RecipeJson(
    id: int,
    title: string,
    instructions: string,
    minutesToComplete: Option<int>,
    user: UserJson)

  datatype Body =
    | ErrorBody(message: string)
    | UserBody(user: UserJson)
    | RecipeBody(recipe: RecipeJson)
    | RecipeListBody(recipes: seq<RecipeJson>)
    | EmptyBody
      /** An exception the handler does not catch, which Flask turns into a 500 page. */
    | InternalError

  datatype Response = Response(status: int, body: Body)

  /** The shortest `instructions` a new recipe may have. */
  const MinInstructions := 50

  /**
   * The rows of `users` by id, the rows of `recipes` in id order, the
   * session's `user_id` and the next ids the store hands out.
   */
  datatype State = State(
    users: map<int, UserRow>,
    recipes: seq<RecipeRow>,
    session: Option<int>,
    nextUserId: int,
    nextRecipeId: int)
  {
    /**
     * What every reachable store satisfies: ids below the counters and keyed
     * by themselves, non-empty unique usernames, a hash for every user, and
     * recipes in id order that meet the creation rules and name an existing
     * owner. The session is a client cookie and is not constrained.
     */
    ghost predicate Valid()
    {
      && 1 <= nextUserId && 1 <= nextRecipeId
      && (forall k :: k in users ==> 1 <= k < nextUserId && users[k].id == k)
      && (forall k :: k in users ==> users[k].username != "" && users[k].passwordHash.Some?)
      && UniqueUsernames(users)
      && (forall i :: 0 <= i < |recipes| ==> RecipeStored(recipes[i], users, nextRecipeId))
      && (forall i, j :: 0 <= i < j < |recipes| ==> recipes[i].id < recipes[j].id)
    }
  }

  ghost predicate UniqueUsernames(users: map<int, UserRow>)
  {
    forall j, k :: j in users && k in users && users[j].username == users[k].username ==> j == k
  }

  ghost predicate RecipeStored(r: RecipeRow, users: map<int, UserRow>, nextRecipeId: int)
  {
    && 1 <= r.id < nextRecipeId
    && r.userId in users
    && r.title != ""
    && |r.instructions| >= MinInstructions
  }

  /** The store invariant says nothing about the session. */
  lemma SessionIrrelevant(s: State, session: Option<int>)
    requires s.Valid()
    ensures s.(session := session).Valid()
  {
  }

  datatype Outcome = Outcome(state: State, response: Response)

  function Empty(): State
  {
    State(map[], [], None, 1, 1)
  }

  /** Python truthiness of an optional string: absent and "" are both falsy. */
  predicate Truthy(v: Option<string>)
  {
    v.Some? && v.value != ""
  }

  /** Python truthiness of the session's `user_id`: absent and 0 are both falsy. */
  predicate SessionTruthy(session: Option<int>)
  {
    session.Some? && session.value != 0
  }

  function Public(u: UserRow): UserJson
  {
    UserJson(u.id, u.username, u.imageUrl, u.bio)
  }

  function RecipeJsonOf(r: RecipeRow, owner: UserRow): RecipeJson
  {
    RecipeJson(r.id, r.title, r.instructions, r.minutesToComplete, Public(owner))
  }

  /** Some user has this username. */
  ghost predicate Taken(s: State, name: string)
  {
    exists k :: k in s.users && s.users[k].username == name
  }

  /**
   * `User.query.filter_by(username=name).first()`: the lowest id in
   * [k, bound) whose user has this username.
   */
  function FindFrom(users: map<int, UserRow>, name: string, k: int, bound: int): (r: Option<int>)
    decreases bound - k
    ensures r.Some? ==> k <= r.value < bound && r.value in users && users[r.value].username == name
    ensures r.Some? ==> forall j :: k <= j < r.value && j in users ==> users[j].username != name
    ensures r.None? ==> forall j :: k <= j < bound && j in users ==> users[j].username != name
  {
    if k >= bound then None
    else if k in users && users[k].username == name then Some(k)
    else FindFrom(users, name, k + 1, bound)
  }

  /** The stored user with this username, if any. */
  function FindUser(s: State, name: string): (r: Option<int>)
    requires s.Valid()
    ensures r.Some? <==> Taken(s, name)
    ensures r.Some? ==> r.value in s.users && s.users[r.value].username == name
  {
    FindFrom(s.users, name, 1, s.nextUserId)
  }

  /** `Signup.post`. */
  function Signup(h: Hasher, s: State, req: SignupRequest, salt: string): (o: Outcome)
    requires s.Valid()
    ensures o.state.Valid()
    ensures o.response.status == 201 || o.response.status == 422
    ensures o.response.status == 201 <==>
      Truthy(req.username) && Truthy(req.password) && !Taken(s, req.username.value)
    ensures o.response.status == 422 ==> o.state == s && o.response.body.ErrorBody?
    ensures o.response.status == 201 ==>
      var id := s.nextUserId;
      && id !in s.users
      && o.state.users.Keys == s.users.Keys + {id}
      && (forall k :: k in s.users ==> o.state.users[k] == s.users[k])
      && o.state.users[id].username == req.username.value
      && o.state.users[id].passwordHash == Some(h.hash(salt, req.password.value))
      && o.state.users[id].imageUrl == req.imageUrl && o.state.users[id].bio == req.bio
      && o.state.recipes == s.recipes
      && o.state.session == Some(id)
      && o.response.body == UserBody(UserJson(id, req.username.value, req.imageUrl, req.bio))
  {
    if !Truthy(req.username) || !Truthy(req.password) then
      Outcome(s, Response(422, ErrorBody("Username and password are required")))
    else if FindUser(s, req.username.value).Some? then
      Outcome(s, Response(422, ErrorBody("Username already exists")))
    else
      var id := s.nextUserId;
      var row := UserRow(id, req.username.value, Some(h.hash(salt, req.password.value)), req.imageUrl, req.bio);
      Outcome(
        s.(users := s.users[id := row], nextUserId := id + 1, session := Some(id)),
        Response(201, UserBody(Public(row))))
  }

  /** `CheckSession.get`: a read-only query. */
  function CheckSession(s: State): (r: Response)
    ensures r.status == 401 <==> !SessionTruthy(s.session)
    ensures r.status == 404 <==> SessionTruthy(s.session) && s.session.value !in s.users
    ensures r.status == 200 <==> SessionTruthy(s.session) && s.session.value in s.users
    ensures r.status == 200 ==> r.body == UserBody(Public(s.users[s.session.value]))
    ensures r.status != 200 ==> r.body.ErrorBody?
  {
    if !SessionTruthy(s.session) then
      Response(401, ErrorBody("Unauthorized"))
    else if s.session.value !in s.users then
      Response(404, ErrorBody("User not found"))
    else
      Response(200, UserBody(Public(s.users[s.session.value])))
  }

  /**
   * `Login.post`. werkzeug raises when asked to check a missing password,
   * which happens only once a user with the given name was found.
   */
  function Login(h: Hasher, s: State, req: LoginRequest): (o: Outcome)
    requires s.Valid()
    ensures o.state.Valid()
    ensures o.state == s.(session := o.state.session)
    ensures o.response.status in {200, 401, 500}
    ensures o.response.status == 200 <==>
      req.password.Some? &&
      exists k :: k in s.users && Some(s.users[k].username) == req.username &&
        h.check(s.users[k].passwordHash.value, req.password.value)
    ensures o.response.status == 500 <==> req.password.None? && req.username.Some? && Taken(s, req.username.value)
    ensures o.response.status == 200 ==>
      && o.state.session.Some?
      && var id := o.state.session.value;
      && id in s.users
      && Some(s.users[id].username) == req.username
      && o.response.body == UserBody(Public(s.users[id]))
    ensures o.response.status != 200 ==> o.state == s
  {
    var found := if req.username.Some? then FindUser(s, req.username.value) else None;
    if found.None? then
      Outcome(s, Response(401, ErrorBody("Invalid username or password")))
    else if req.password.None? then
      Outcome(s, Response(500, InternalError))
    else
      var u := s.users[found.value];
      if h.check(u.passwordHash.value, req.password.value) then
        Outcome(s.(session := Some(u.id)), Response(200, UserBody(Public(u))))
      else
        Outcome(s, Response(401, ErrorBody("Invalid username or password")))
  }

  /** `Logout.delete`: deliberately not idempotent. */
  function Logout(s: State): (o: Outcome)
    ensures o.state == s.(session := None)
    ensures o.response.status == 204 <==> s.session.Some?
    ensures o.response.status == 204 ==> o.response.body == EmptyBody
    ensures o.response.status != 204 ==> o.response.status == 401 && o.state == s
  {
    if s.session.Some? then
      Outcome(s.(session := None), Response(204, EmptyBody))
    else
      Outcome(s, Response(401, ErrorBody("No active session")))
  }

  /** `RecipeIndex.get`: every stored recipe, nested with its owner. */
  function ListRecipes(s: State): (r: Response)
    requires s.Valid()
    ensures r.status == 401 <==> s.session.None?
    ensures r.status == 401 ==> r.body == ErrorBody("Unauthorized")
    ensures r.status != 401 ==>
      && r.status == 200
      && r.body.RecipeListBody?
      && |r.body.recipes| == |s.recipes|
      && forall i :: 0 <= i < |s.recipes| ==>
           r.body.recipes[i] == RecipeJsonOf(s.recipes[i], s.users[s.recipes[i].userId])
  {
    if s.session.None? then
      Response(401, ErrorBody("Unauthorized"))
    else
      Response(200, RecipeListBody(
        seq(|s.recipes|, i requires 0 <= i < |s.recipes| =>
          RecipeJsonOf(s.recipes[i], s.users[s.recipes[i].userId]))))
  }

  /** The validation of `RecipeIndex.post`. */
  predicate AcceptableRecipe(req: RecipeRequest)
  {
    Truthy(req.title) && Truthy(req.instructions) && |req.instructions.value| >= MinInstructions
  }

  /**
   * `RecipeIndex.post`. The owner is the session's user id. When that id
   * names no user, a store that enforces the declared foreign key refuses
   * the row, and the uncaught error becomes a 500 with nothing stored.
   * A store that does not enforce it is not part of this model.
   */
  function CreateRecipe(s: State, req: RecipeRequest): (o: Outcome)
    requires s.Valid()
    ensures o.state.Valid()
    ensures o.state.users == s.users && o.state.session == s.session
    ensures o.response.status == 401 <==> s.session.None?
    ensures o.response.status == 422 <==> s.session.Some? && !AcceptableRecipe(req)
    ensures o.response.status == 500 <==>
      s.session.Some? && AcceptableRecipe(req) && s.session.value !in s.users
    ensures o.response.status == 201 <==>
      s.session.Some? && AcceptableRecipe(req) && s.session.value in s.users
    ensures o.response.status != 201 ==> o.state == s
    ensures o.response.status == 201 ==>
      && |o.state.recipes| == |s.recipes| + 1
      && var row := o.state.recipes[|s.recipes|];
      && o.state.recipes == s.recipes + [row]
      && row.id == s.nextRecipeId
      && row.userId == s.session.value
      && Some(row.title) == req.title && Some(row.instructions) == req.instructions
      && row.minutesToComplete == req.minutesToComplete
      && o.response.body == RecipeBody(RecipeJsonOf(row, s.users[s.session.value]))
  {
    if s.session.None? then
      Outcome(s, Response(401, ErrorBody("Unauthorized")))
    else if !AcceptableRecipe(req) then
      Outcome(s, Response(422, ErrorBody("Invalid recipe data")))
    else if s.session.value !in s.users then
      Outcome(s, Response(500, InternalError))
    else
      var owner := s.session.value;
      var row := RecipeRow(s.nextRecipeId, req.title.value, req.instructions.value, req.minutesToComplete, owner);
      Outcome(
        s.(recipes := s.recipes + [row], nextRecipeId := s.nextRecipeId + 1),
        Response(201, RecipeBody(RecipeJsonOf(row, s.users[owner]))))
  }
}
