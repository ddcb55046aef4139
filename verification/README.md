# Recipe server: a Dafny model

This project models a small Flask backend with session-based accounts and a shared recipe list. Its data model is two tables, `users` and `recipes`, where a user owns many recipes. It has five resources:

- `Signup.post` creates a user and logs them in.
- `CheckSession.get` returns the logged-in user.
- `Login.post` checks a password and starts a session.
- `Logout.delete` ends the session.
- `RecipeIndex.get` and `RecipeIndex.post` list every recipe with its owner, and create a recipe owned by the session's user.

The model has four modules:

- `Wrappers` (`wrappers.dfy`): `Option`, for Python's `None`, and `Result`, for a call that raises.
- `Models` (`models.dfy`): the `User` and `Recipe` classes of `server/models.py`.
  - `User` has the write-only `password` attribute: its getter always raises, and its setter stores a salted hash.
  - werkzeug's `generate_password_hash` and `check_password_hash` are a `Hasher` value of two uninterpreted functions.
  - werkzeug's promise that a hash made from `p` verifies against `p` is the predicate `Sound`. Only the lemmas that need it take it as a hypothesis.
  - `UserRow` and `RecipeRow` are the values of stored rows.
- `Api` (`api.dfy`): the specification. It has one pure function per handler of `server/app.py`.
  - Each function maps a `State` and a request to the next state and a `Response` (a status code and a body).
  - A `State` holds the two tables, the session cookie's `user_id` and the id counters.
  - `State.Valid` is the store invariant:
    - usernames are unique and non-empty;
    - every user has a hash;
    - every recipe has a title, at least 50 characters of instructions and an existing owner;
    - ids lie below the counters.
  - Every handler preserves it.
- `Server` (`server.dfy`): the imperative model.
  - The class `App` holds the `User` and `Recipe` objects, the session and the id counters.
  - Its handler methods create objects, set passwords, add and commit rows, and set or clear the session.
  - Each method is proved to produce exactly the state and response that the matching `Api` function gives for the snapshot `State()`.
- `Properties` (`properties.dfy`): lemmas that relate several handlers. They cover:
  - round trips: signup then login, signup then check-session, logout twice;
  - the two-way user/recipe relationship;
  - that no response depends on a stored hash;
  - what holds in every state that a sequence of requests can reach from an empty store.

Python truthiness is modelled exactly:
- A request field counts as missing when the key is absent or the string is empty (`Truthy`).
- `CheckSession.get` rejects an absent or zero `user_id` (`SessionTruthy`).
- `Logout.delete` and both recipe endpoints only test whether the key is present. `SessionZeroQuirk` shows where the two tests differ. `SessionChecksAgree` proves that they agree in every reachable state, because the store never hands out id 0.

Where the code differs from the system's stated design, the model follows the code:
- A recipe post whose session names a user who no longer exists is not rejected with a 4xx. The model assumes a store that enforces the foreign key declared at `server/models.py:37`. That store refuses the row at commit. Nothing catches the `IntegrityError` (it is imported at `server/app.py:5` and never used), so the response is a 500 and nothing is stored. For a store that does not enforce the key, see the foreign-key line under "## Left out".
- The `password` setter does not reject an empty plaintext. Only `Signup.post` checks for one, before calling the setter.
- A login that names an existing user but sends no password reaches `check_password_hash(hash, None)`. That call raises, so the response is a 500 rather than a 401.

## Model

| member | source | states |
|---|---|---|
| `Models.User.constructor` | server/models.py:8-15 | A new user holds exactly the given username, image_url and bio, and has no id and no hash until stored |
| `Models.User.Password` | server/models.py:19-21 | Reading `password` always raises; no plaintext and no hash is ever returned |
| `Models.User.SetPassword` | server/models.py:23-25 | Assigning `password` replaces the hash with a fresh salted hash of the new plaintext, whatever was there before. The id is unchanged. With a sound hasher, the new plaintext then verifies |
| `Models.User.VerifyPassword` | server/models.py:27-28 | A read-only query of the stored hash. With a sound hasher, a candidate from which the stored hash was made is accepted |
| `Models.Recipe.constructor` | server/models.py:41-45 | The constructor stores exactly the four supplied values in the matching fields; there is no id until stored |
| `Api.FindFrom` | server/app.py:21 | The `filter_by(username=...).first()` lookup finds the lowest id in range whose user has the name. It finds nothing exactly when no user in range has it |
| `Api.FindUser` | server/app.py:63 | In a valid store the lookup finds a user exactly when the username is taken, and what it finds has that username |
| `Api.Signup` | server/app.py:11-38 | Returns 201 exactly when both fields are truthy and the username is free, and 422 otherwise, with state untouched. On success: exactly one user is added under the next id, with that username, the hash of the password, image_url and bio; no other user changes; the session is the new id; the body is exactly `{id, username, image_url, bio}`; the store invariant holds |
| `Api.CheckSession` | server/app.py:41-55 | 401 iff `user_id` is absent or falsy; 404 iff it is truthy and names no user; 200 iff it names a user, with that user's public fields. A pure query |
| `Api.Login` | server/app.py:58-74 | 200 iff a password is given and some user with that username accepts it; the session is then that user's id and the body is that user's public fields. A 500 comes back iff the user exists and the password is absent. On 401 or 500 nothing changes. Only the session can ever change |
| `Api.Logout` | server/app.py:77-82 | Afterwards there is no session. 204 with an empty body iff there was one, otherwise 401 with state untouched |
| `Api.ListRecipes` | server/app.py:85-103 | 401 iff `user_id` is absent, and then the body is only the `Unauthorized` error and holds no recipe data. Otherwise 200 with one entry per stored recipe, in order, each nested with its owner's public fields. A pure query |
| `Api.CreateRecipe` | server/app.py:105-139 | 401 iff there is no session. 422 iff title or instructions is missing or empty, or instructions has fewer than 50 characters. 500 iff the data is acceptable but the session user does not exist. 201 otherwise. Only a 201 changes state: one recipe is appended with the next id, the request's title, instructions and minutes, and the session's user as owner (never the request's `user_id`). Users and session are never touched |
| `Server.App.FindByUsername` | server/app.py:21-22 | Scanning the stored user objects by id finds the same user as `Api.FindUser`, and returns the stored object itself |
| `Server.App.AddUser` | server/app.py:28-29 | Add and commit give the user the next id. The snapshot gains exactly that row and the counter advances |
| `Server.App.AddRecipe` | server/app.py:125-126 | Add and commit give the recipe the next id. The snapshot gains exactly that row at the end and the counter advances |
| `Server.App.SetSession` | server/app.py:31 | Setting or clearing the session's `user_id` changes nothing else in the snapshot |
| `Server.App.Signup` | server/app.py:11-23 | The handler on objects yields exactly `Api.Signup`'s state and response, and keeps the invariant |
| `Server.App.Register` | server/app.py:25-38 | Creating the object, hashing the password, committing and setting the session yields exactly `Api.Signup`'s accepting outcome |
| `Server.App.CheckSession` | server/app.py:42-55 | Returns exactly `Api.CheckSession`'s response; changes nothing |
| `Server.App.Login` | server/app.py:59-74 | Calls `verify_password` on the stored object and yields exactly `Api.Login`'s state and response |
| `Server.App.Logout` | server/app.py:78-82 | Yields exactly `Api.Logout`'s state and response |
| `Server.App.ListRecipes` | server/app.py:86-103 | Builds the list recipe by recipe and returns exactly `Api.ListRecipes`'s response; changes nothing |
| `Server.App.CreateRecipe` | server/app.py:106-139 | Yields exactly `Api.CreateRecipe`'s state and response, and keeps the invariant |
| `Properties.FindUserOfStored` | server/models.py:12 | Usernames are unique, so looking up a stored user's name finds that user |
| `Properties.SignupThenLogin` | server/app.py:63-72 | With a sound hasher, logging in with the signup credentials succeeds. It returns the same body as the signup and leaves the same state |
| `Properties.SignupThenCheckSession` | server/app.py:31-55 | Right after a signup, check-session returns 200 with the signup's body |
| `Properties.LogoutTwice` | server/app.py:78-82 | Two consecutive logouts return 204 then 401 |
| `Properties.LoggedOutIsRefused` | server/app.py:86-107 | After logout, check-session, the recipe list and recipe creation answer exactly 401 `Unauthorized`, with no data, and logout itself answers 401 `No active session`. None of them changes anything |
| `Properties.SignupResponseIgnoresHash` | server/app.py:33-38 | The signup response is the same for every hash function and salt, so it carries nothing derived from the password |
| `Properties.ReadsIgnoreHashes` | server/app.py:90-101 | Stores that differ only in password hashes give identical check-session and recipe-list responses |
| `Properties.CreatedRecipeIsListed` | server/app.py:118-126 | After a successful post, the list is the previous list followed by the created recipe's body |
| `Properties.RecipesOf` | server/models.py:17 | `user.recipes` holds a recipe exactly when that recipe is stored and its `user_id` is the user's id |
| `Properties.Owner` | server/models.py:37-39 | `recipe.user` is a stored user; in a valid store its id is the recipe's `user_id` |
| `Properties.TwoWayRelationship` | server/models.py:37-39 | A stored recipe is among a stored user's recipes exactly when that user is `recipe.user` |
| `Properties.CreateRecipeExtendsOwner` | server/app.py:118-123 | A created recipe joins the session user's `recipes` at the end and no other user's |
| `Properties.Handle` | server/app.py:141-145 | Each of the six resource methods keeps the store invariant. Only signup, login and logout can change the session |
| `Properties.Run` | server/models.py:11-37 | Every state that a sequence of requests reaches keeps the column and key constraints. Usernames are unique and non-null, hashes are non-null, recipe columns are non-null, and every owner exists |
| `Properties.RunKeepsSessionPositive` | server/app.py:66 | The session is only ever set to an id the store handed out, never to a falsy one |
| `Properties.SessionChecksAgree` | server/app.py:42-43 | From an empty store, the truthiness test of check-session and the key-presence test of the other endpoints always agree |
| `Properties.SessionZeroQuirk` | server/app.py:42-87 | On a `user_id` of 0, check-session answers 401 while the recipe list answers 200 and logout answers 204 |
| `Properties.NoSessionWithoutLogin` | server/app.py:42-44 | With no session and no signup or login requests, the session stays absent and check-session keeps answering 401 |
| `Properties.ChefScenario` | server/app.py:115-116 | On an empty store, signing up chef1 gives 201 with id 1 and null image_url and bio, and check-session repeats that body. Instructions of 49 characters are refused with 422, and 50 are accepted, owned by chef1 |

## Left out

- The HTTP layer is left out: Flask routing, `api.add_resource`, `jsonify` and `app.run`. A response is a status code and a body datatype. `Properties.Handle` only dispatches a call to its handler.
- A request body that is not a JSON object, and field values of other JSON types, are not modelled. Request fields are optional strings, or an optional integer for `minutes_to_complete`.
- Cookie signing and encoding are left out. The session is one client's `Option<int>` and is not constrained by the store invariant, since a cookie can outlive the rows it names.
- SQLAlchemy persistence is left out: sessions, transactions, lazy loading. The tables are a map and a sequence.
  - Ids come from counters starting at 1, as SQLite's row ids do when nothing is deleted.
  - `Recipe.query.all()` is taken to return rows in id order.
- Foreign keys: the model assumes the store enforces the declared foreign key. SQLite, for example, does not unless `PRAGMA foreign_keys=ON` is set. On such a store, a recipe posted for a missing user is committed, and the handler then fails at `server/app.py:134` on `new_recipe.user.id`. Every later `RecipeIndex.get` would also fail, at `server/app.py:96`. The model captures neither the dangling row nor those later failures.
- werkzeug's algorithm and salt generation are left out. The salt is a parameter of `SetPassword` and `Signup`. That a stored hash never equals the plaintext is werkzeug's property and is not modelled.
- Models.User.VerifyPassword: for a missing candidate it does not model werkzeug raising. `Api.Login` and `Server.App.Login` model that case as a 500 before the call.
- Nothing reassigns `username`, `image_url`, `bio` or the four recipe columns after construction, so the model declares them as constants.
- Concurrent signups racing on one username are not modelled. The model is sequential.
- The unused `bcrypt` import, `SerializerMixin` and the `config` module are not part of this model.
