/** Vocabulary shared by the outfit-sharing backend: document identifiers,
    request fields as the route handlers see them, and HTTP status codes. */
module Base {

  datatype Option<+T> = None | Some(value: T)

  /** A document identifier (a MongoDB ObjectId), kept as an opaque string. */
  type Id = string

  /** A field of a request body or query string: absent (undefined or null)
      or a string. */
  type Field = Option<string>

  /** JavaScript truthiness of a string field, as in `if (!username)`:
      present and not the empty string. */
  predicate Given(f: Field)
  {
    f.Some? && f.value != ""
  }

  const OK := 200
  const CREATED := 201
  const BAD_REQUEST := 400
  const UNAUTHORIZED := 401
  const NOT_FOUND := 404
  const SERVER_ERROR := 500

  /** An upper bound on the lengths of a finite set of strings. */
  ghost function MaxLength(ss: set<string>): (n: nat)
    ensures forall s :: s in ss ==> |s| <= n
  {
    if ss == {} then 0
    else
      var s :| s in ss;
      var rest := MaxLength(ss - {s});
      if |s| > rest then |s| else rest
  }

  /** An identifier a client can name in a route: not empty and not the
      string "undefined" that an unset client variable turns into. */
  predicate Nameable(id: Id)
  {
    id != "" && id != "undefined"
  }

  /** However many documents exist, the database can always mint a fresh
      identifier that none of them uses. */
  lemma UnusedIdExists(used: set<Id>)
    ensures exists id: Id :: id !in used && Nameable(id)
  {
    var id: Id := seq(MaxLength(used) + 1, _ => 'f');
    assert id !in used;
    assert id[0] == 'f';
  }
}
