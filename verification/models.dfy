/**
 * The data model of server/models.py: the `users` and `recipes` tables, the
 * write-only `password` attribute of a user, and werkzeug's password hashing
 * left uninterpreted.
 */
module Models {
  import opened Wrappers

  /**
   * werkzeug's `generate_password_hash` and `check_password_hash`, not part of
   * this model. `hash(salt, plaintext)` takes the random salt as a parameter;
   * `check(storedHash, candidate)` says whether the candidate matches.
   */
  datatype Hasher = Hasher(hash: (string, string) -> string, check: (string, string) -> bool)

  /** werkzeug's promise: a hash made from a plaintext verifies against it. */
  ghost predicate Sound(h: Hasher)
  {
    forall salt, p :: h.check(h.hash(salt, p), p)
  }

  /** The value of one row of `users` (an id is present once the store assigned it). */
  datatype UserRow = UserRow(
    id: int,
    username: string,
    passwordHash: Option<string>,
    imageUrl: Option<string>,
    bio: Option<string>)

  /** The value of one row of `recipes`. */
  datatype RecipeRow = RecipeRow(
    id: int,
    title: string,
    instructions: string,
    minutesToComplete: Option<int>,
    userId: int)

  /** A `User` instance. Nothing in the system reassigns username, image_url or bio. */
  class User {
    var id: Option<int>
    const username: string
    var passwordHash: Option<string>
    const imageUrl: Option<string>
    const bio: Option<string>

    /** `User(username=..., image_url=..., bio=...)`: no id and no hash yet. */
    constructor (username: string, imageUrl: Option<string>, bio: Option<string>)
      ensures this.username == username && this.imageUrl == imageUrl && this.bio == bio
      ensures id == None && passwordHash == None
    {
      this.username := username;
      this.imageUrl := imageUrl;
      this.bio := bio;
      id := None;
      passwordHash := None;
    }

    /** Reading `password` raises: no plaintext and no hash is ever returned. */
    function Password(): (r: Result<string>)
      ensures r.Failure?
    {
      Failure("password is not a readable attribute")
    }

    /**
     * Assigning `password` stores a fresh salted hash of the plaintext,
     * overwriting any earlier hash and leaving the other fields alone.
     */
    method SetPassword(h: Hasher, salt: string, password: string)
      modifies this
      ensures passwordHash == Some(h.hash(salt, password))
      ensures id == old(id)
      ensures Sound(h) ==> VerifyPassword(h, password)
    {
      passwordHash := Some(h.hash(salt, password));
    }

    /**
     * `verify_password`: a query on the stored hash. A candidate from which the
     * stored hash was made is accepted whenever werkzeug keeps its promise.
     */
    function VerifyPassword(h: Hasher, candidate: string): (ok: bool)
      reads this
      requires passwordHash.Some?
      ensures Sound(h) && (exists salt :: passwordHash.value == h.hash(salt, candidate)) ==> ok
    {
      h.check(passwordHash.value, candidate)
    }

    /** The row this object is stored as, once the store gave it an id. */
    function Row(): UserRow
      reads this
      requires id.Some?
    {
      UserRow(id.value, username, passwordHash, imageUrl, bio)
    }
  }

  /** A `Recipe` instance. Nothing in the system reassigns its four columns. */
  class Recipe {
    var id: Option<int>
    const title: string
    const instructions: string
    const minutesToComplete: Option<int>
    const userId: int

    /** `Recipe.__init__`: stores exactly the four supplied values; no id yet. */
    constructor (title: string, instructions: string, minutesToComplete: Option<int>, userId: int)
      ensures this.title == title && this.instructions == instructions
      ensures this.minutesToComplete == minutesToComplete && this.userId == userId
      ensures id == None
    {
      this.title := title;
      this.instructions := instructions;
      this.minutesToComplete := minutesToComplete;
      this.userId := userId;
      id := None;
    }

    /** The row this object is stored as, once the store gave it an id. */
    function Row(): RecipeRow
      reads this
      requires id.Some?
    {
      RecipeRow(id.value, title, instructions, minutesToComplete, userId)
    }
  }
}
