/**
 * The handlers of server/app.py as methods of one application object: the
 * store holds `User` and `Recipe` objects, the session holds the cookie's
 * `user_id`, and each handler is proved to do what the matching function of
 * `Api` specifies on the snapshot `State()`.
 */
module Server {
  import opened Wrappers
  import opened Models
  import Api

  /** The rows that stored user objects stand for. */
  ghost function UserRows(users: map<int, User>): (rows: map<int, UserRow>)
    reads users.Values
    requires forall k :: k in users ==> users[k].id.Some?
    ensures rows.Keys == users.Keys
  {
    map k | k in users :: users[k].Row()
  }

  /** The rows that stored recipe objects stand for, in the same order. */
  ghost function RecipeRows(recipes: seq<Recipe>): (rows: seq<RecipeRow>)
    reads recipes
    requires forall i :: 0 <= i < |recipes| ==> recipes[i].id.Some?
    ensures |rows| == |recipes|
  {
    seq(|recipes|, i reads recipes requires 0 <= i < |recipes| && recipes[i].id.Some? => recipes[i].Row())
  }

  /** Rows of objects that did not change are the same rows. */
  twostate lemma UserRowsUnchanged(users: map<int, User>)
    requires forall k :: k in users ==> old(users[k].id).Some?
    requires unchanged(users.Values)
    ensures forall k :: k in users ==> users[k].id.Some?
    ensures UserRows(users) == old(UserRows(users))
  {
  }

  /** Storing one more object adds its row and keeps the others. */
  twostate lemma UserRowsExtended(users: map<int, User>, new user: User)
    requires user.id.Some?
    requires forall k :: k in users ==> old(users[k].id).Some?
    requires unchanged(users.Values)
    ensures forall k :: k in users ==> users[k].id.Some?
    ensures UserRows(users[user.id.value := user]) == old(UserRows(users))[user.id.value := user.Row()]
  {
  }

  twostate lemma RecipeRowsUnchanged(recipes: seq<Recipe>)
    requires forall i :: 0 <= i < |recipes| ==> old(recipes[i].id).Some?
    requires unchanged(recipes)
    ensures forall i :: 0 <= i < |recipes| ==> recipes[i].id.Some?
    ensures RecipeRows(recipes) == old(RecipeRows(recipes))
  {
  }

  twostate lemma RecipeRowsExtended(recipes: seq<Recipe>, new recipe: Recipe)
    requires recipe.id.Some?
    requires forall i :: 0 <= i < |recipes| ==> old(recipes[i].id).Some?
    requires unchanged(recipes)
    ensures forall i :: 0 <= i < |recipes| ==> recipes[i].id.Some?
    ensures RecipeRows(recipes + [recipe]) == old(RecipeRows(recipes)) + [recipe.Row()]
  {
  }

  class App {
    const hasher: Hasher
    /** The `users` table: the stored object for each id. */
    var users: map<int, User>
    /** The `recipes` table, in id order. */
    var recipes: seq<Recipe>
    /** The session cookie's `user_id`, if the key is present. */
    var session: Option<int>
    /** The ids the store hands to the next inserted rows. */
    var nextUserId: int
    var nextRecipeId: int

    /** Every stored object carries the id it is stored under. */
    ghost predicate Stored()
      reads this, users.Values, recipes
    {
      && (forall k :: k in users ==> users[k].id == Some(k))
      && (forall i :: 0 <= i < |recipes| ==> recipes[i].id.Some?)
    }

    /** The rows of the store and the session, as a value. */
    ghost function State(): Api.State
      reads this, users.Values, recipes
      requires Stored()
    {
      Api.State(UserRows(users), RecipeRows(recipes), session, nextUserId, nextRecipeId)
    }

    ghost predicate Valid()
      reads this, users.Values, recipes
    {
      Stored() && State().Valid()
    }

    /** An empty store and no session. */
    constructor (h: Hasher)
      ensures Valid() && hasher == h && State() == Api.Empty()
    {
      hasher := h;
      users := map[];
      recipes := [];
      session := None;
      nextUserId := 1;
      nextRecipeId := 1;
    }

    /** `User.query.filter_by(username=name).first()`: scans the ids in order. */
    method FindByUsername(name: string) returns (u: Option<User>)
      requires Valid()
      ensures u.None? <==> Api.FindUser(State(), name).None?
      ensures u.Some? ==>
        u.value.id == Api.FindUser(State(), name) && u.value.id.value in users && users[u.value.id.value] == u.value
    {
      var k := 1;
      while k < nextUserId
        invariant 1 <= k <= nextUserId
        invariant Api.FindUser(State(), name) == Api.FindFrom(State().users, name, k, nextUserId)
      {
        if k in users && users[k].username == name {
          return Some(users[k]);
        }
        k := k + 1;
      }
      return None;
    }

    /** `db.session.add(user)` and `commit()`: the store gives the row the next id. */
    method AddUser(user: User) returns (id: int)
      requires Stored()
      requires user !in users.Values
      modifies this, user
      ensures id == old(nextUserId) && user.id == Some(id) && user.passwordHash == old(user.passwordHash)
      ensures Stored()
      ensures State() == old(State()).(users := old(State()).users[id := user.Row()], nextUserId := id + 1)
    {
      ghost var before := users;
      id := nextUserId;
      user.id := Some(id);
      users := users[id := user];
      nextUserId := id + 1;
      UserRowsExtended(before, user);
      RecipeRowsUnchanged(recipes);
    }

    /** `db.session.add(recipe)` and `commit()`: the store gives the row the next id. */
    method AddRecipe(recipe: Recipe) returns (id: int)
      requires Stored()
      requires recipe !in recipes
      modifies this, recipe
      ensures id == old(nextRecipeId) && recipe.id == Some(id)
      ensures Stored()
      ensures State() == old(State()).(recipes := old(State()).recipes + [recipe.Row()], nextRecipeId := id + 1)
    {
      ghost var before := recipes;
      id := nextRecipeId;
      recipe.id := Some(id);
      recipes := recipes + [recipe];
      nextRecipeId := id + 1;
      UserRowsUnchanged(users);
      RecipeRowsExtended(before, recipe);
    }

    /** Sets or clears the session cookie's `user_id`. */
    method SetSession(userId: Option<int>)
      requires Stored()
      modifies this
      ensures Stored()
      ensures State() == old(State()).(session := userId)
    {
      session := userId;
      UserRowsUnchanged(users);
      RecipeRowsUnchanged(recipes);
    }

    /** `Signup.post`. */
    method Signup(req: Api.SignupRequest, salt: string) returns (resp: Api.Response)
      requires Valid()
      modifies this
      ensures Stored() && Api.Outcome(State(), resp) == Api.Signup(hasher, old(State()), req, salt)
      ensures Valid()
    {
      if !Api.Truthy(req.username) || !Api.Truthy(req.password) {
        return Api.Response(422, Api.ErrorBody("Username and password are required"));
      }
      var existing := FindByUsername(req.username.value);
      if existing.Some? {
        return Api.Response(422, Api.ErrorBody("Username already exists"));
      }
      resp := Register(req, salt);
    }

    /** The accepting half of `Signup.post`: store the new user and log it in. */
    method Register(req: Api.SignupRequest, salt: string) returns (resp: Api.Response)
      requires Valid()
      requires Api.Truthy(req.username) && Api.Truthy(req.password)
      requires Api.FindUser(State(), req.username.value).None?
      modifies this
      ensures Stored() && Api.Outcome(State(), resp) == Api.Signup(hasher, old(State()), req, salt)
      ensures Valid()
    {
      ghost var s := State();
      var user := new User(req.username.value, req.imageUrl, req.bio);
      user.SetPassword(hasher, salt, req.password.value);
      assert State() == s;
      var id := AddUser(user);
      ghost var row := user.Row();
      assert State() == s.(users := s.users[id := row], nextUserId := id + 1);
      SetSession(Some(id));
      resp := Api.Response(201, Api.UserBody(Api.Public(user.Row())));
      assert row == UserRow(id, req.username.value, Some(hasher.hash(salt, req.password.value)), req.imageUrl, req.bio);
      assert State() == s.(users := s.users[id := row], nextUserId := id + 1, session := Some(id));
    }

    /** `CheckSession.get`: changes nothing. */
    method CheckSession() returns (resp: Api.Response)
      requires Valid()
      ensures resp == Api.CheckSession(State())
    {
      var userId := session;
      if !Api.SessionTruthy(userId) {
        return Api.Response(401, Api.ErrorBody("Unauthorized"));
      }
      if userId.value !in users {
        return Api.Response(404, Api.ErrorBody("User not found"));
      }
      var user := users[userId.value];
      resp := Api.Response(200, Api.UserBody(Api.Public(user.Row())));
    }

    /** `Login.post`. */
    method Login(req: Api.LoginRequest) returns (resp: Api.Response)
      requires Valid()
      modifies this
      ensures Stored() && Api.Outcome(State(), resp) == Api.Login(hasher, old(State()), req)
      ensures Valid()
    {
      ghost var s := State();
      ghost var found := if req.username.Some? then Api.FindUser(s, req.username.value) else None;
      var user := None;
      if req.username.Some? {
        user := FindByUsername(req.username.value);
      }
      if user.None? {
        assert found.None?;
        return Api.Response(401, Api.ErrorBody("Invalid username or password"));
      }
      assert found == user.value.id && s.users[found.value] == user.value.Row();
      if req.password.None? {
        return Api.Response(500, Api.InternalError);
      }
      var ok := user.value.VerifyPassword(hasher, req.password.value);
      if ok {
        SetSession(user.value.id);
        resp := Api.Response(200, Api.UserBody(Api.Public(user.value.Row())));
        Api.SessionIrrelevant(s, found);
      } else {
        resp := Api.Response(401, Api.ErrorBody("Invalid username or password"));
      }
    }

    /** `Logout.delete`. */
    method Logout() returns (resp: Api.Response)
      requires Valid()
      modifies this
      ensures Stored() && Api.Outcome(State(), resp) == Api.Logout(old(State()))
      ensures Valid()
    {
      if session.Some? {
        SetSession(None);
        resp := Api.Response(204, Api.EmptyBody);
      } else {
        resp := Api.Response(401, Api.ErrorBody("No active session"));
      }
    }

    /** `RecipeIndex.get`: builds the list one recipe at a time; changes nothing. */
    method ListRecipes() returns (resp: Api.Response)
      requires Valid()
      ensures resp == Api.ListRecipes(State())
    {
      if session.None? {
        return Api.Response(401, Api.ErrorBody("Unauthorized"));
      }
      ghost var s := State();
      var list := [];
      for i := 0 to |recipes|
        invariant |list| == i
        invariant forall j :: 0 <= j < i ==> list[j] == Api.RecipeJsonOf(s.recipes[j], s.users[s.recipes[j].userId])
      {
        var recipe := recipes[i];
        assert recipe.Row() == s.recipes[i];
        var owner := users[recipe.userId];
        list := list + [Api.RecipeJsonOf(recipe.Row(), owner.Row())];
      }
      resp := Api.Response(200, Api.RecipeListBody(list));
    }

    /** `RecipeIndex.post`. */
    method CreateRecipe(req: Api.RecipeRequest) returns (resp: Api.Response)
      requires Valid()
      modifies this
      ensures Stored() && Api.Outcome(State(), resp) == Api.CreateRecipe(old(State()), req)
      ensures Valid()
    {
      if session.None? {
        return Api.Response(401, Api.ErrorBody("Unauthorized"));
      }
      var userId := session.value;
      if !Api.AcceptableRecipe(req) {
        return Api.Response(422, Api.ErrorBody("Invalid recipe data"));
      }
      var recipe := new Recipe(req.title.value, req.instructions.value, req.minutesToComplete, userId);
      if userId !in users {
        return Api.Response(500, Api.InternalError);
      }
      var id := AddRecipe(recipe);
      resp := Api.Response(201, Api.RecipeBody(Api.RecipeJsonOf(recipe.Row(), users[userId].Row())));
    }
  }
}
