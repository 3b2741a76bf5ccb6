# FSND capstone casting API: verified model of its logic

The service is a Flask API over actors, movies and the associations that cast an actor in a movie.
Access is guarded by bearer tokens from an external identity provider (Auth0).
Three small pieces of it hold all the logic that can be stated. This project models those three in Dafny:

- **The authorization guard** (`auth/auth.py`), in module `Auth`. It reads the token from the
  `Authorization` header, picks the signing key from the provider's JSON Web Key Set by key id,
  has the token library verify and decode the token, and checks the `permissions` claim. Each step
  passes or stops the request with an `AuthError(message, status)`. The message and status are
  the source's own. `requires_auth(permission, enabled)` runs the steps in order before the handler.
- **Response shaping** (`schemas/actor.py`, `schemas/movie.py`), in modules `ActorSchema` and
  `MovieSchema`. These turn rows into JSON-shaped values. The movie response flattens the movie's
  actors and their association rows into `[actor id, actor name, character name]` triples.
- **Database URL normalisation** (`model/__init__.py:12-13`), in module `Database`. A
  `postgres://` URL is rewritten to `postgresql://`.

Supporting modules:

- `Wrappers`: Option, Result and Outcome.
- `Strings`: Python's `str.split(' ')`, `str.lower()` for ASCII letters, `str.startswith` and
  `str.replace(old, new, 1)`, written out over `seq<char>`.
- `Json`: numbers, strings, lists and objects.

Two source functions change local state in loops. Each is a method proved equal to a specification
function:

- `verify_decode_jwt` scans the key set and stops at the first match.
  `Auth.VerifyDecodeJwt` is proved equal to `Auth.VerifyDecode`.
- `MovieRepresentation` appends inside two nested loops.
  `MovieSchema.MovieRepresentation` is proved equal to `MovieSchema.MovieView`.

Everything else in the core is guards, dict literals and list comprehensions. Those are functions.

Calls into other code become parameters. A `Verifier` value bundles:

- the configuration read from `AUTH0_DOMAIN`, `ALGORITHMS` and `API_AUDIENCE`;
- the key set fetched from the provider;
- `jwt.get_unverified_header`;
- `jwt.decode`, which checks the signature, audience, issuer and algorithm as RFC 7519 specifies,
  using RFC 7517 keys. It is an oracle that returns a payload or the text of its error.

The request's `Authorization` header is an `Option<string>`. The wrapped handler is a function
value applied to its arguments.

Points of the code that a reader might not expect:

- The required permission `''` (the default of `requires_auth`) is not waived. The check passes
  only if the token's permission list contains the empty string. `Auth.DefaultPermissionNotWaived`
  states this.
- Statuses and messages are the code's:
  - a missing key id is 401 `key id missing.`;
  - an unknown key id is 400 `could not find key`;
  - every token-library failure is 400, `error processing token: ...`.
- Actors carry `id`, `name`, `age` and `email`, as in `model/actor.py`.
- The movie representation reads `movie.actors`, `a.associations` and `m.character_name`. The
  shown ORM classes do not declare these attributes. The model takes them as plain records:
  - a `Movie` holds a sequence of `CastMember`s;
  - each `CastMember` holds its association rows `Edge(movieId, characterName)`.

`str.lower()` is modelled as ASCII case mapping. For the one comparison the guard makes,
`scheme.lower() == 'bearer'`, this gives the same answer as Python's full Unicode mapping. The
reason is that no non-ASCII code point lower-cases to `b`, `e`, `a` or `r`.

## Model

| member | source | states |
|---|---|---|
| `Strings.Split` | auth/auth.py:28 | `split(' ')` yields one more part than there are spaces; no part contains a space; joining the parts with spaces gives back the header |
| `Strings.SplitTwo` | auth/auth.py:28-30 | two space-free strings joined by one space split into exactly those two strings |
| `Strings.AsciiLower` | auth/auth.py:30 | `lower()` on the scheme word keeps its length, turns each ASCII capital into its lower-case letter, and keeps every other character |
| `Strings.AsciiLowerIdempotent` | auth/auth.py:30 | lower-casing twice equals lower-casing once |
| `Strings.StartsWith` | model/__init__.py:12 | `startswith(prefix)` holds iff the prefix is no longer than the string and matches it character by character |
| `Strings.ReplaceFirst` | model/__init__.py:13 | `replace(target, replacement, 1)` returns the string itself when `target` occurs nowhere; otherwise it replaces the first occurrence and keeps the text before and after it |
| `Strings.Find` | model/__init__.py:13 | the first-occurrence search behind `replace(..., 1)` returns the lowest index where the pattern occurs, or none if it occurs nowhere |
| `Auth.GetTokenAuthHeader` | auth/auth.py:24-33 | a missing header, and only a missing header, gives `('missing authorization header.', 401)`; every other failure is `('auth header is malformed.', 401)`; a success means the header is a 6-letter scheme that lower-cases to `bearer`, one space, then the returned space-free token |
| `Auth.BearerSchemeSpelling` | auth/auth.py:30 | the scheme words accepted are exactly the six-letter spellings of `bearer` with each letter in either case |
| `Auth.HeaderRoundTrip` | auth/auth.py:28-33 | for any scheme that lower-cases to `bearer` and any space-free token, `scheme + " " + token` parses to exactly that token |
| `Auth.WrongSpaceCountIsMalformed` | auth/auth.py:28-31 | a header without exactly one space is malformed; this covers a doubled space and a token that contains a space |
| `Auth.WrongSchemeIsMalformed` | auth/auth.py:30-31 | a scheme word that does not lower-case to `bearer` is malformed, whatever the token |
| `Auth.CheckPermissions` | auth/auth.py:38-42 | passes iff the payload has a `permissions` list containing the required string; a payload with no list fails with `('missing permissions.', 403)` before any membership test; a list lacking the string fails with `('access is forbidden.', 403)` |
| `Auth.FindKey` | auth/auth.py:55-58 | no key is chosen iff no entry of the key set has the token's key id; otherwise the chosen key is the first matching entry, copied down to `kty`, `kid`, `use`, `n`, `e` |
| `Auth.FindKeyIsFirstMatch` | auth/auth.py:55-58 | whenever `i` is the first index with the token's key id, the chosen key is entry `i`'s |
| `Auth.VerifyDecode` | auth/auth.py:47-66 | a header without `kid` gives `('key id missing.', 401)`; every failure is that error, `('could not find key', 400)`, or a 400 whose message starts with `error processing token: `; a success is the library's payload for the first matching key, with the configured audience, the issuer `https://<domain>/` and the single configured algorithm |
| `Auth.UnknownKeyId` | auth/auth.py:59-65 | a key id absent from the key set gives `('could not find key', 400)` |
| `Auth.DecodesWithFirstMatchingKey` | auth/auth.py:59-63 | with a matching key, the result is the library's payload, or `error processing token: <reason>` with status 400 |
| `Auth.VerifyDecodeJwt` | auth/auth.py:47-66 | the scan with `break` computes exactly `VerifyDecode` |
| `Auth.RequiresAuth` | auth/auth.py:72-82 | disabled: the handler's result, with no header or claim read; enabled: the header, the token and the permissions are checked in that order, and a refusal carries exactly the error of the first step that failed; any success carries the handler's unchanged result, and happens only if all three steps passed |
| `Auth.MalformedHeaderRefused` | auth/auth.py:28-31 | an enabled guard refuses a header without exactly one space (a doubled space, for one) with `('auth header is malformed.', 401)` |
| `Auth.DeniedRequestIgnoresHandler` | auth/auth.py:76-80 | a refused request's outcome is the same for every handler, so the handler is never invoked |
| `Auth.PermissionDenialFollowsValidToken` | auth/auth.py:76-79 | a 403 is reported only when the header parsed and the token decoded; the steps run header, then decode, then permissions |
| `Auth.DefaultPermissionNotWaived` | auth/auth.py:72-79 | with the default permission `''`, a verified bearer request is admitted iff its permission list contains `''` |
| `Auth.AuthorizedRequest` | auth/auth.py:76-80 | end to end: a well-formed bearer header, a key id found in the key set, a token the library accepts under the first such key, and the permission granted together return the handler's result unchanged |
| `ActorSchema.ActorRepresentation` | schemas/actor.py:39-47 | exactly the keys `id`, `name`, `age`, `email`, each holding the actor's field |
| `ActorSchema.ParseActorView` | schemas/actor.py:5-11 | an actor read back from a JSON object requires the four view-schema fields |
| `ActorSchema.ActorRoundTrip` | schemas/actor.py:39-47 | the actor representation reads back to the same actor, so it loses no field |
| `ActorSchema.ActorListRepresentation` | schemas/actor.py:49-54 | the only key is `actors`; the list has the input's length, and entry i is the representation of actor i |
| `ActorSchema.EmptyActorList` | schemas/actor.py:52-54 | no actors give `{"actors": []}` |
| `ActorSchema.ActorListInjective` | schemas/actor.py:52-54 | two inputs with the same list response are equal, so order and contents are preserved |
| `MovieSchema.MovieView` | schemas/movie.py:60-74 | exactly the keys `id`, `title`, `genre`, `release_date`, `assocations`; the first four are copied unchanged; the cast list is under the misspelled key |
| `MovieSchema.MovieRepresentation` | schemas/movie.py:60-74 | the nested loops with `append` build exactly `MovieView` |
| `MovieSchema.ActorEntriesMembership` | schemas/movie.py:65-67 | an actor's entries are exactly the triples of that actor's rows whose `movie_id` is the movie's id |
| `MovieSchema.CastingMembership` | schemas/movie.py:63-67 | the cast list holds `[a.id, a.name, m.character_name]` exactly for the pairs (a in the movie's actors, m in a's rows) with `m.movie_id == movie.id`; rows of other movies never appear |
| `MovieSchema.ActorEntriesCount` | schemas/movie.py:65-67 | an actor with k rows pointing to the movie contributes k entries |
| `MovieSchema.ActorEntriesAppend` | schemas/movie.py:65-67 | within one actor, entries follow the order of the actor's rows |
| `MovieSchema.CastingAppend` | schemas/movie.py:64-67 | the cast list is actor-major: the entries for actors `xs + ys` are those for `xs` followed by those for `ys` |
| `MovieSchema.MoviePatchRepresentation` | schemas/movie.py:51-58 | exactly the keys `title`, `genre`, `release_date`, holding the movie's values |
| `MovieSchema.PatchIsViewWithoutIdAndCast` | schemas/movie.py:51-74 | the patch representation is the full representation minus `id` and the cast list |
| `MovieSchema.MovieListRepresentation` | schemas/movie.py:76-81 | the only key is `movies`; the list has the input's length, and entry i is the full representation of movie i |
| `MovieSchema.MovieListAppend` | schemas/movie.py:79-81 | listing `xs + ys` lists `xs`, then `ys` |
| `Database.NormalizeDatabaseUrl` | model/__init__.py:12-13 | a URL starting with `postgres://` becomes `postgresql://` plus the unchanged remainder; any other URL is returned unchanged; the result never starts with `postgres://` |
| `Database.AlreadyNormalized` | model/__init__.py:12 | a URL already starting with `postgresql://` is unchanged |
| `Database.NormalizeIdempotent` | model/__init__.py:12-13 | normalising twice equals normalising once |
| `Database.RewriteLength` | model/__init__.py:12-13 | when the rewrite fires, the result is exactly two characters longer, and everything after the scheme is unchanged |

## Left out

- Fetching the key set from `https://<domain>/.well-known/jwks.json` and parsing its JSON
  (auth/auth.py:48-50) is network I/O. The key set is a parameter of `Verifier`.
- Verifying the token's signature, audience, issuer and expiry (`jwt.decode`, auth/auth.py:61) is
  done by a foreign library. It is the `decode` oracle of `Verifier`.
- Reading the token header (`jwt.get_unverified_header`, auth/auth.py:51) is the `unverifiedHeader`
  oracle, and it is total in the model. When the library raises on a token it cannot parse, the
  exception is not an `AuthError` and escapes the guard. That path is not modelled.
- Errors that are not `AuthError`s are not modelled either:
  - a key set without a `keys` member;
  - a key entry lacking one of the five copied members (a `KeyError` in the source).
- Unset environment variables are not modelled; the configuration is three strings. In the
  source, `os.environ.get` returns `None` for an unset variable, with a different effect for each:
  - an unset `AUTH0_DOMAIN` is formatted as the text `None` into the key-set URL and the issuer
    (auth/auth.py:48, 61);
  - an unset `API_AUDIENCE` is passed to `jwt.decode` as `None` itself (auth/auth.py:11, 61);
  - an unset `ALGORITHMS` makes the algorithm list `[None]` (auth/auth.py:10).
- Flask's request object and its case-insensitive header lookup are not modelled. The guard sees
  the `Authorization` header value or its absence.
- The `permissions` claim is modelled as a list of strings. A claim of another JSON type, where
  Python's `in` would mean something else (a substring test on a string), is not modelled.
- `str.lower()` is modelled for ASCII letters only. The README's opening section explains why this
  is exact for the `bearer` comparison.
- Python dicts keep insertion order. The model's JSON objects are maps, so key order is not
  modelled.
- `release_date` is a `Date` column. The model carries it as text and copies it unchanged.
- ActorSchema.ParseActorView: checks only that the four view-schema fields are present and of the
  right kind. It does not model pydantic's coercions.
- Database engine creation, sessions and `create_all` (model/__init__.py:16-20) are database I/O.
- The SQLAlchemy models (model/actor.py, model/movie.py, model/actor_movie.py) have nothing to
  model. Their unique, composite-key and cascade constraints are enforced by the database. They
  declare no create, update, delete or association operations.
- The pydantic schema classes in schemas/*.py are not modelled. Their validation is the library's.
  The exception is the field list of `ActorViewSchema`. `ActorSchema.ParseActorView` checks it
  only to read an actor representation back for `ActorSchema.ActorRoundTrip`.
- schemas/error.py and schemas/actor_movie.py hold a one-line dict wrapper and a bare schema, with
  nothing further to state.
- app.py is the Flask factory, CORS and two constant routes. It imports `model.model.setup_db`,
  which is not part of this model.
- auth_helper/app.py is a browser-driven OAuth helper and is pure I/O.
- tests/test_app.py needs live tokens and a seeded database.
