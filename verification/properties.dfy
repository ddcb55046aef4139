/**
 * Properties that relate several handlers of server/app.py or the two
 * entities of server/models.py: round trips between signup, login, session
 * check and logout, the user/recipe relationship, what a response can reveal,
 * and what holds in every state a sequence of requests can reach.
 */
module Properties {
  import opened Wrappers
  import opened Models
  import opened Api

  /** A stored user is what the username lookup finds for its own name. */
  lemma FindUserOfStored(s: State, k: int)
    requires s.Valid() && k in s.users
    ensures FindUser(s, s.users[k].username) == Some(k)
  {
    var r := FindUser(s, s.users[k].username);
    assert r.Some?;
  }

  /**
   * Logging in with the credentials just used to sign up succeeds and returns
   * the same serialised user, provided werkzeug's check accepts what its hash
   * produced.
   */
  lemma SignupThenLogin(h: Hasher, s: State, req: SignupRequest, salt: string)
    requires Sound(h) && s.Valid()
    requires Signup(h, s, req, salt).response.status == 201
    ensures
      var o := Signup(h, s, req, salt);
      var l := Login(h, o.state, LoginRequest(req.username, req.password));
      l.response == Response(200, o.response.body) && l.state == o.state
  {
    var o := Signup(h, s, req, salt);
    var id := s.nextUserId;
    FindUserOfStored(o.state, id);
    assert h.check(h.hash(salt, req.password.value), req.password.value);
  }

  /** Right after signing up, the session resolves to the new user. */
  lemma SignupThenCheckSession(h: Hasher, s: State, req: SignupRequest, salt: string)
    requires s.Valid()
    requires Signup(h, s, req, salt).response.status == 201
    ensures
      var o := Signup(h, s, req, salt);
      CheckSession(o.state) == Response(200, o.response.body)
  {
  }

  /** Logout is not idempotent: with a session, two logouts give 204 then 401. */
  lemma LogoutTwice(s: State)
    requires s.session.Some?
    ensures Logout(s).response.status == 204
    ensures Logout(Logout(s).state).response.status == 401
  {
  }

  /** After logout every endpoint that needs a session refuses with 401 and changes nothing. */
  lemma LoggedOutIsRefused(s: State, req: RecipeRequest)
    requires s.Valid()
    ensures
      var t := Logout(s).state;
      && CheckSession(t) == Response(401, ErrorBody("Unauthorized"))
      && ListRecipes(t) == Response(401, ErrorBody("Unauthorized"))
      && CreateRecipe(t, req) == Outcome(t, Response(401, ErrorBody("Unauthorized")))
      && Logout(t) == Outcome(t, Response(401, ErrorBody("No active session")))
  {
  }

  /** The signup response is the same whatever hash function and salt are used. */
  lemma SignupResponseIgnoresHash(h1: Hasher, h2: Hasher, s: State, req: SignupRequest, salt1: string, salt2: string)
    requires s.Valid()
    ensures Signup(h1, s, req, salt1).response == Signup(h2, s, req, salt2).response
  {
  }

  /** Two stores that differ at most in their users' password hashes. */
  ghost predicate SameButHashes(s1: State, s2: State)
  {
    && s1.users.Keys == s2.users.Keys
    && (forall k :: k in s1.users ==> s1.users[k].(passwordHash := None) == s2.users[k].(passwordHash := None))
    && s1.recipes == s2.recipes && s1.session == s2.session
    && s1.nextUserId == s2.nextUserId && s1.nextRecipeId == s2.nextRecipeId
  }

  /** The read-only endpoints reveal nothing about the stored hashes. */
  lemma ReadsIgnoreHashes(s1: State, s2: State)
    requires s1.Valid() && s2.Valid() && SameButHashes(s1, s2)
    ensures CheckSession(s1) == CheckSession(s2)
    ensures ListRecipes(s1) == ListRecipes(s2)
  {
    if SessionTruthy(s1.session) && s1.session.value in s1.users {
      var k := s1.session.value;
      assert s1.users[k].(passwordHash := None) == s2.users[k].(passwordHash := None);
    }
    if s1.session.Some? {
      var l1 := ListRecipes(s1).body.recipes;
      var l2 := ListRecipes(s2).body.recipes;
      forall i | 0 <= i < |l1|
        ensures l1[i] == l2[i]
      {
        var k := s1.recipes[i].userId;
        assert s1.users[k].(passwordHash := None) == s2.users[k].(passwordHash := None);
      }
    }
  }

  /** A created recipe is listed last, after the recipes listed before it. */
  lemma CreatedRecipeIsListed(s: State, req: RecipeRequest)
    requires s.Valid()
    requires CreateRecipe(s, req).response.status == 201
    ensures
      var o := CreateRecipe(s, req);
      ListRecipes(o.state) == Response(200, RecipeListBody(ListRecipes(s).body.recipes + [o.response.body.recipe]))
  {
    var o := CreateRecipe(s, req);
    var before := ListRecipes(s).body.recipes;
    var after := ListRecipes(o.state).body.recipes;
    assert after == before + [o.response.body.recipe] by {
      forall i | 0 <= i < |after|
        ensures after[i] == (before + [o.response.body.recipe])[i]
      {
        if i < |before| {
          assert o.state.recipes[i] == s.recipes[i];
        }
      }
    }
  }

  // ---------------------------------------------------------------------------
  // The relationship between users and recipes

  /**
   * `user.recipes`: the recipes whose owner id is the user's id, in id
   * order. A recipe is among them exactly when it is stored and owned by
   * that id.
   */
  function RecipesOf(recipes: seq<RecipeRow>, userId: int): (r: seq<RecipeRow>)
    ensures forall x :: x in r <==> x in recipes && x.userId == userId
  {
    if recipes == [] then []
    else
      var init := recipes[..|recipes| - 1];
      var last := recipes[|recipes| - 1];
      assert recipes == init + [last];
      RecipesOf(init, userId) + (if last.userId == userId then [last] else [])
  }

  /** `recipe.user`: the stored user whose id is the recipe's owner id. */
  function Owner(s: State, r: RecipeRow): (u: UserRow)
    requires r.userId in s.users
    ensures u in s.users.Values
    ensures s.Valid() ==> u.id == r.userId
  {
    s.users[r.userId]
  }

  /**
   * The two sides of the relationship agree: a stored recipe is among a
   * stored user's recipes exactly when that user is the recipe's owner.
   */
  lemma TwoWayRelationship(s: State, u: UserRow, i: int)
    requires s.Valid()
    requires u.id in s.users && s.users[u.id] == u
    requires 0 <= i < |s.recipes|
    ensures s.recipes[i] in RecipesOf(s.recipes, u.id) <==> Owner(s, s.recipes[i]) == u
  {
    assert RecipeStored(s.recipes[i], s.users, s.nextRecipeId);
  }

  /** Creating a recipe adds it to its owner's recipes and to nobody else's. */
  lemma CreateRecipeExtendsOwner(s: State, req: RecipeRequest, userId: int)
    requires s.Valid()
    requires CreateRecipe(s, req).response.status == 201
    ensures
      var o := CreateRecipe(s, req);
      RecipesOf(o.state.recipes, userId) ==
        RecipesOf(s.recipes, userId) + (if userId == s.session.value then [o.state.recipes[|s.recipes|]] else [])
  {
    var o := CreateRecipe(s, req);
    assert o.state.recipes[..|o.state.recipes| - 1] == s.recipes;
  }

  // ---------------------------------------------------------------------------
  // Sequences of requests

  /** One request to one of the five resources. */
  datatype Call =
    | SignupCall(signup: SignupRequest, salt: string)
    | CheckSessionCall
    | LoginCall(login: LoginRequest)
    | LogoutCall
    | ListRecipesCall
    | CreateRecipeCall(recipe: RecipeRequest)

  function Handle(h: Hasher, s: State, c: Call): (o: Outcome)
    requires s.Valid()
    ensures o.state.Valid()
    ensures o.state.session != s.session ==> c.SignupCall? || c.LoginCall? || c.LogoutCall?
  {
    match c
    case SignupCall(req, salt) => Signup(h, s, req, salt)
    case CheckSessionCall => Outcome(s, CheckSession(s))
    case LoginCall(req) => Login(h, s, req)
    case LogoutCall => Logout(s)
    case ListRecipesCall => Outcome(s, ListRecipes(s))
    case CreateRecipeCall(req) => CreateRecipe(s, req)
  }

  /** The state after handling the calls in order. */
  function Run(h: Hasher, s: State, calls: seq<Call>): (t: State)
    requires s.Valid()
    ensures t.Valid()
    decreases |calls|
  {
    if calls == [] then s else Run(h, Handle(h, s, calls[0]).state, calls[1..])
  }

  /** The session holds nothing, or an id the store could have handed out. */
  predicate SessionPositive(s: State)
  {
    s.session.Some? ==> s.session.value >= 1
  }

  lemma {:induction false} RunKeepsSessionPositive(h: Hasher, s: State, calls: seq<Call>)
    requires s.Valid() && SessionPositive(s)
    ensures SessionPositive(Run(h, s, calls))
    decreases |calls|
  {
    if calls != [] {
      var t := Handle(h, s, calls[0]).state;
      assert SessionPositive(t);
      RunKeepsSessionPositive(h, t, calls[1..]);
    }
  }

  /**
   * CheckSession tests the truthiness of `user_id`, Logout and the recipe
   * endpoints test its presence. In every state reachable from an empty
   * store the two tests agree.
   */
  lemma SessionChecksAgree(h: Hasher, calls: seq<Call>)
    ensures
      var s := Run(h, Empty(), calls);
      SessionTruthy(s.session) <==> s.session.Some?
  {
    RunKeepsSessionPositive(h, Empty(), calls);
  }

  /** The two tests differ only on a falsy id, which the store never hands out. */
  lemma SessionZeroQuirk(s: State)
    requires s.Valid() && s.session == Some(0)
    ensures CheckSession(s).status == 401
    ensures ListRecipes(s).status == 200
    ensures Logout(s).response.status == 204
  {
  }

  /** Without a signup or a login, a state with no session keeps having none. */
  lemma {:induction false} NoSessionWithoutLogin(h: Hasher, s: State, calls: seq<Call>)
    requires s.Valid() && s.session.None?
    requires forall i :: 0 <= i < |calls| ==> !calls[i].SignupCall? && !calls[i].LoginCall?
    ensures Run(h, s, calls).session.None?
    ensures CheckSession(Run(h, s, calls)).status == 401
    decreases |calls|
  {
    if calls != [] {
      NoSessionWithoutLogin(h, Handle(h, s, calls[0]).state, calls[1..]);
    }
  }

  // ---------------------------------------------------------------------------
  // The chef1 walk-through on an empty store

  function Chef(): SignupRequest
  {
    SignupRequest(Some("chef1"), Some("hunter22"), None, None)
  }

  function Xs(n: nat): string
  {
    seq(n, _ => 'x')
  }

  lemma ChefScenario(h: Hasher, salt: string)
    ensures
      var o := Signup(h, Empty(), Chef(), salt);
      var chef := UserJson(1, "chef1", None, None);
      && o.response == Response(201, UserBody(chef))
      && CheckSession(o.state) == Response(200, UserBody(chef))
      && CreateRecipe(o.state, RecipeRequest(Some("Toast"), Some(Xs(49)), None, None)).response.status == 422
      && var c := CreateRecipe(o.state, RecipeRequest(Some("Toast"), Some(Xs(50)), None, None));
      && c.response.status == 201
      && c.response.body.recipe.user == chef
  {
    var o := Signup(h, Empty(), Chef(), salt);
    assert FindUser(Empty(), "chef1") == None;
    assert |Xs(49)| == 49 && |Xs(50)| == 50;
  }
}
