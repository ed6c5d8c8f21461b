# nestjs-cf-pagination core in Dafny

This project models the logic of a NestJS blog back end and proves
properties about it.

- **Query composer and pagination** (`CommonService`). It turns the
  `where__…` and `order__…` properties of a request into find options. It
  pages by offset when `page` is truthy, and by cursor otherwise. The cursor
  response carries a next link that echoes the request and moves the id
  cursor past the last row.
- **Posts service** (`PostsService`). Create, seed, look up, update and
  delete rows of the post table. It also has the delegating pagination entry
  point and two hand-written pagination variants.
- **Auth service** (`AuthService`):
  - access and refresh token payloads and lifetimes;
  - login;
  - refresh-token rotation;
  - credential checking;
  - parsing of `Authorization` headers and Basic credentials.
- **Length pipes**: `PasswordPipe`, `MaxLengthPipe` and `MinLengthPipe`.
- **Length validation message** template.
- **`PaginatePostDto`**: its defaults, its allowed values, and how the
  composer reads its field names.

Files and modules:

| file | module | contents |
|---|---|---|
| `js_runtime.dfy` | `JsRuntime` | JavaScript values and truthiness, `String(…)`, `Number(…)`, `toString()`, `split` with a non-empty separator, exceptions as the error side of `Result` |
| `common_service.dfy` | `Common` | `CommonService` |
| `posts_service.dfy` | `Posts` | `PostsService`, a `class` over the post table |
| `auth_service.dfy` | `Auth` | `AuthService` |
| `password_pipe.dfy` | `Pipes` | the three pipes |
| `length_validation_message.dfy` | `ValidationMessages` | `lenghValidationMessage` |
| `paginate_post_dto.dfy` | `PaginatePostDto` | `PaginatePostDto` |

How the model represents the system:

- **Requests.** A request object is the sequence of its `(key, value)`
  properties in enumeration order. A property read is `Get`, and a missing
  property reads as `undefined`.
- **Errors.** An exception is `Err(e)`. `TypeError` covers the crashes the
  code can hit: calling a missing `FILTER_MAPPER` entry, reading
  `searchParams` of a `null` next link, `toString()` on `null` or
  `undefined`. It carries no message, because the engine writes that text,
  not the program.
- **Collaborators.** A TypeORM repository is a datatype of functions. The
  JWT library, base64 decoding, `bcrypt.compare` and the user lookup are
  function parameters. `FILTER_MAPPER` is a `map` from operator token to the
  name of the operator constructor. `JWT_SECRET` is a parameter.

The model follows the code as written, including these places where the
code behaves unexpectedly:

- An empty cursor page is a `TypeError`. On an empty page `nextUrl` is
  `null`, and the code reads `nextUrl.searchParams` before it ever reaches
  `lastItem.id` (`common.service.ts:75`, `posts.service.ts:133`). So the
  next link is never `null` in a result.
- The composed `take` is read from `dto.page` (`common.service.ts:127`).
- `order__` keys are parsed by `parseWhereFilter` (`common.service.ts:121`),
  so a three-segment order key is accepted. `parseOrderFilter` is never
  called; it is modelled all the same.
- The echo loop skips `where__id_less_than`, with a single underscore
  (`common.service.ts:62`). So an incoming `where__id__less_than` is
  echoed, and can appear twice in the next link (`Common.LessThanKeyEchoed`).
- `rotateToken` signs `{...decoded}`. That object has no `id`, so the new
  token's `sub` is undefined (`Auth.RotationLosesSubject`).

The paginator is modelled twice on purpose. The functions
(`Common.PagePaginated`, `Common.CursorPaginated`, `Common.Paginated`) state
what a request yields and carry the lemmas. The methods (`Common.PagePaginate`,
`Common.CursorPaginate`, `Common.Paginate`) run the source's loops:
`Common.ComposeFindOptions` over the request's properties and
`Common.BuildNextQuery` over the next link's pairs. Each method is proved equal
to its function, and that equality carries the loops' correctness up to the
entry points.

## Model

| member | source | states |
|---|---|---|
| JsRuntime.IsTruthy | src/common/common.service.ts:61 | `if (v)` fails exactly for undefined, null, 0, NaN and the empty string |
| JsRuntime.Get | src/common/common.service.ts:127-128 | a missing key reads as undefined; a present key reads as the value of one of its entries, which may itself be undefined |
| JsRuntime.ToStringMethod | src/auth/pipe/password.pipe.ts:6 | `toString()` throws on null and undefined, and otherwise agrees with `String(v)` |
| JsRuntime.ToJsString | src/common/common.service.ts:63 | `String(v)` keeps a string as it is, renders a number so that `Number` reads it back, and is empty only for the empty string |
| JsRuntime.StringToNumber | src/common/common.service.ts:128 | `Number(s)` is always a number or NaN, and NaN for any string that ends in a non-digit |
| JsRuntime.ToNumber | src/common/common.service.ts:128 | the operand conversion of `-` and `*` gives a number or NaN, and leaves a number unchanged |
| JsRuntime.Sub | src/common/common.service.ts:128 | `a - b` is the difference of the converted operands when both are numbers, and NaN otherwise |
| JsRuntime.Mul | src/common/common.service.ts:128 | `a * b` is the product of the converted operands when both are numbers, and NaN otherwise |
| JsRuntime.NumberOfIntToString | src/common/common.service.ts:75 | an id written into the next link reads back as the same number |
| JsRuntime.Split | src/common/common.service.ts:134 | `split` with a non-empty separator yields at least one piece |
| JsRuntime.SplitSingleIffFree | src/common/common.service.ts:134 | a split gives a single piece exactly when the separator does not occur in the string |
| JsRuntime.FindFrom | src/common/common.service.ts:134 | `split` cuts at the first occurrence at or after the start, and none comes before it |
| JsRuntime.JoinSplit | src/common/common.service.ts:134 | joining the pieces of a split with the separator gives back the original string |
| JsRuntime.SplitPiecesFree | src/auth/auth.service.ts:56 | no piece of a split contains the separator |
| JsRuntime.SplitAfter | src/common/common.service.ts:134 | a string whose first separator follows `a` splits into `a` and then the split of the rest |
| JsRuntime.FreeChar | src/auth/auth.service.ts:56 | a string has no one-character separator exactly when it lacks that character |
| JsRuntime.SplitCharJoin | src/auth/auth.service.ts:56 | splitting `a + c + b` on `c`, where `a` has no `c`, gives `a` and then the split of `b` |
| Common.Override | src/common/common.service.ts:29-32 | in an object spread the later object's property wins, and a property it lacks comes from the earlier one |
| Common.Merge | src/common/common.service.ts:29-32 | every find option the override sets replaces the composed one; `{}` as the override changes nothing |
| Common.ParseWhereFilter | src/common/common.service.ts:131-164 | succeeds exactly for 2 segments, or 3 segments whose operator is in the mapper; the result has exactly the key `split[1]`, holding the raw value for 2 segments and the mapped operator for 3; other counts are BadRequest naming the key; an unknown operator is a TypeError |
| Common.ParseOrderFilter | src/common/common.service.ts:165-175 | accepts exactly the two-segment keys and yields `{field: value}`; otherwise BadRequest |
| Common.ParseEqualityKey | src/common/common.service.ts:138-140 | `prefix__field` is the equality clause `{field: value}` |
| Common.ParseOperatorKey | src/common/common.service.ts:141-160 | `prefix__field__op` is `{field: FILTER_MAPPER[op](value)}`, or a TypeError when op is not in the mapper |
| Common.ParseRejectsFourSegments | src/common/common.service.ts:134-137 | a four-segment key is rejected with the key in the message |
| Common.EntryClauses | src/common/common.service.ts:117-123 | a property that starts with neither `where__` nor `order__` contributes nothing |
| Common.ComposeErrorFromEntry | src/common/common.service.ts:117-123 | a failed composition fails with the exception of one of the request's properties |
| Common.Composed | src/common/common.service.ts:124-129 | the options carry the composed where and order; `take` is `dto.page`; `skip` is `take * (page - 1)` when page and take are both numbers and page is non-zero, and null for a falsy page; composition errors propagate |
| Common.ComposeClausesAppend | src/common/common.service.ts:117-123 | composing `a + b` is composing `a`, then spreading the clauses of `b` over it; the first exception wins |
| Common.ComposeIgnoresOtherKeys | src/common/common.service.ts:117-123 | inserting a property that is neither a where nor an order key, anywhere, leaves where and order unchanged |
| Common.ComposeSucceedsIff | src/common/common.service.ts:117-123 | composition succeeds exactly when every property's parse succeeds |
| Common.ComposeStopsAtError | src/common/common.service.ts:117-123 | the first property whose parse throws decides the outcome: its exception is what composition raises |
| Common.ComposeRejectsMalformed | src/common/common.service.ts:134-137 | one where or order key that does not split into 2 or 3 segments makes the whole composition fail |
| Common.ComposeLaterWins | src/common/common.service.ts:119-121 | a field set by a later part of the request overrides the earlier part, for where and for order |
| Common.ComposeLastWhereWins | src/common/common.service.ts:119 | the last where property decides the clause of its field |
| Common.OrderKeyWithOperatorAccepted | src/common/common.service.ts:120-121 | an `order__field__op` key is accepted, and orders by the operator clause |
| Common.AddEntry | src/common/common.service.ts:118-122 | one pass of the loop spreads a where key's filter into where, an order key's into order, and leaves both for any other key; a throwing parse is its error |
| Common.ComposedFromClauses | src/common/common.service.ts:124-129 | once the clauses are composed, the options are those clauses with `take: dto.page` and `skip` from take and page |
| Common.ComposeFindOptions | src/common/common.service.ts:87-130 | the loop over the properties computes exactly the composed options, or the first exception |
| Common.CursorKey | src/common/common.service.ts:69-74 | the cursor key is `where__id__more_than` exactly when the order is `'ASC'`, and `where__id__less_than` otherwise |
| Common.Echo | src/common/common.service.ts:60-67 | the echoed query pairs never use the two skipped keys and are no more than the request's properties |
| Common.EchoAppend | src/common/common.service.ts:60-67 | the echo of `a + b` is the echo of `a` followed by the echo of `b` |
| Common.EchoContains | src/common/common.service.ts:60-67 | a pair is echoed exactly when it comes from a truthy property other than the two skipped keys, as `(key, String(value))` |
| Common.LessThanKeyEchoed | src/common/common.service.ts:62 | because of the misspelt skip key, a truthy `where__id__less_than` is echoed; with a non-ASC order the next link then holds that key twice |
| Common.NextQuery | src/common/common.service.ts:58-75 | the next query is the echo followed by exactly one cursor pair `(cursor key, last id)`, and `where__id__more_than` appears only as the cursor |
| Common.BuildNextQuery | src/common/common.service.ts:58-75 | the append loop builds exactly the next query |
| Common.AsRequest | src/common/common.service.ts:58-75 | the link's query read back as a request has one string-valued property per query pair, in order |
| Common.IdFilterKeyParses | src/common/common.service.ts:141-159 | `where__id__<op>` with a plain op is the id filter `FILTER_MAPPER[op]`, or a TypeError when the mapper lacks op |
| Common.MoreThanKeyParses | src/common/common.service.ts:71 | the ASC cursor key filters id with `FILTER_MAPPER['more_than']` |
| Common.LessThanKeyParses | src/common/common.service.ts:73 | the non-ASC cursor key filters id with `FILTER_MAPPER['less_than']` |
| Common.IdPairClauses | src/common/common.service.ts:141-159 | a lone `where__id__<op>` pair composes to the id filter `FILTER_MAPPER[op](value)` and no order |
| Common.AppendIdPair | src/common/common.service.ts:117-123 | appending an id filter pair to request pairs that compose keeps their order clauses and makes that filter the where clause of `id` |
| Common.NextLinkFiltersById | src/common/common.service.ts:58-75 | when the echo composes and does not already hold the cursor key, following the next link composes too; it keeps the echoed order and filters id beyond the last id (MoreThan for ASC, LessThan otherwise), overriding an echoed id filter under the other key |
| Common.CursorEnvelope | src/common/common.service.ts:56-84 | an empty page is a TypeError; otherwise the data is the rows, the count their number, `after` the last row's id, and the next link is the path with the next query for that id |
| Common.PagePaginated | src/common/common.service.ts:23-37 | offset paging returns `{data, total: count}` of `findAndCount` on the composed options with the overrides spread over them; composition errors propagate |
| Common.CursorPaginated | src/common/common.service.ts:39-85 | cursor paging is the cursor envelope of `find` on the composed options with the overrides spread over them; composition errors propagate |
| Common.Paginated | src/common/common.service.ts:16-20 | the result is pagePaginate's when `dto.page` is truthy and cursorPaginate's otherwise, so it is an offset page exactly then; composition errors propagate unchanged |
| Common.RejectedRequestIgnoresRepository | src/common/common.service.ts:28-29 | a request the composer rejects gets the same exception whatever the store holds |
| Common.PagePaginate | src/common/common.service.ts:23-37 | the method returns the offset page described above |
| Common.CursorPaginate | src/common/common.service.ts:39-85 | the method returns the cursor envelope described above |
| Common.Paginate | src/common/common.service.ts:10-21 | the method dispatches on the truthiness of `dto.page` as described above |
| Posts.NewPost | src/posts/posts.service.ts:158-169 | a created post has the given author, the dto's title and content, and zero like and comment counts |
| Posts.Updated | src/posts/posts.service.ts:181-187 | only a truthy title or content overwrites; id, author and counters are unchanged |
| Posts.GeneratedPostsRows | src/posts/posts.service.ts:61-68 | the seeded rows use exactly ids `start .. start+n-1`, and row `start+i` is the i-th seeded post |
| Posts.GeneratedDtoNumbered | src/posts/posts.service.ts:63-66 | the i-th seeded title and content are their fixed prefix followed by i in decimal |
| Posts.GeneratedPostsStep | src/posts/posts.service.ts:62-66 | one more iteration adds exactly the next seeded row to the table |
| Posts.GeneratedPostsFresh | src/posts/posts.service.ts:62-66 | the seeded ids lie above every existing id, so seeding replaces no row |
| Posts.GeneratedTitlesDistinct | src/posts/posts.service.ts:64 | the seeded posts have pairwise different titles |
| Posts.PagePostOptions | src/posts/posts.service.ts:85-91 | ordered by `createdAt` from `order__createdAt`; take is `dto.take`; skip is `take * (page - 1)` for numbers, NaN when take or page does not convert to a number, and 0 for a null take with a numeric page |
| Posts.CursorPostOptions | src/posts/posts.service.ts:99-112 | the id filter of `CursorIdFilter`, order by `createdAt` from `order__createdAt`, take `dto.take`, and no skip |
| Posts.CursorIdFilter | src/posts/posts.service.ts:99-104 | LessThan on a truthy `where__id__less_than`; otherwise MoreThan on a truthy `where__id__more_than`; otherwise no id filter; `less_than` wins when both are given |
| Posts.TableRepository | src/posts/posts.service.ts:49-53 | the injected repository answers queries from the post table, and a row's id is its `id` |
| Posts.PostsService.constructor | src/posts/posts.service.ts:49-53 | a service starts with an empty, well-formed table |
| Posts.PostsService.CreatePost | src/posts/posts.service.ts:158-169 | saves the new post under a fresh id, changes nothing else, and keeps every row under its own id |
| Posts.PostsService.GeneratePost | src/posts/posts.service.ts:61-68 | after the loop the table is the old table plus exactly the 100 seeded posts under 100 new ids |
| Posts.PostsService.GetPostById | src/posts/posts.service.ts:145-156 | the stored row when the id exists, and otherwise a returned (not thrown) NotFoundException |
| Posts.PostsService.UpdatePost | src/posts/posts.service.ts:171-190 | NotFound and no change for a missing id; otherwise the row is replaced by its update and returned, and no other row changes |
| Posts.PostsService.DeletePost | src/posts/posts.service.ts:192-204 | NotFound and no change for a missing id; otherwise exactly that row is removed and its id returned |
| Posts.PostsService.PagePaginatePost | src/posts/posts.service.ts:78-96 | `{data, total}` from the page options on the current table |
| Posts.PostsService.CursorPaginatePosts | src/posts/posts.service.ts:98-143 | the cursor envelope with path `posts` around the rows the service's own cursor options select; it fails exactly when no row is selected |
| Posts.PostsService.PaginatePosts | src/posts/posts.service.ts:70-77 | delegates to the common paginator with `{}` overrides and path `posts` |
| Posts.PaginatePostsUsesComposedOptions | src/posts/posts.service.ts:70-77 | in cursor mode the table is queried with exactly the composed options |
| Auth.SignToken | src/auth/auth.service.ts:17-24 | the token is the payload signed with `TokenOptions` for its kind; under a sound JWT library it verifies with the same secret to the payload of that user and token kind |
| Auth.TokenPayload | src/auth/auth.service.ts:18-22 | the payload copies the email and carries the id as `sub`; its type is `'refresh'` exactly for a refresh token and `'access'` otherwise |
| Auth.TokenOptions | src/auth/auth.service.ts:23 | the options carry the secret and an expiry of 3600 s exactly for a refresh token, 300 s otherwise; `SignToken` signs every token with them |
| Auth.LoginTokenLifetimes | src/auth/auth.service.ts:17-30 | a login signs the access token with the secret for 300 s and the refresh token for 3600 s, each with its payload |
| Auth.LoginUser | src/auth/auth.service.ts:25-30 | the access token is signed with the flag false and the refresh token with the flag true, both for the same user |
| Auth.VerifyToken | src/auth/auth.service.ts:79-87 | a token that verifies yields its payload, and any failure is Unauthorized |
| Auth.RotateToken | src/auth/auth.service.ts:89-102 | fails exactly when the token does not verify (uncaught library error) or its type is not `'refresh'` (Unauthorized); otherwise signs a token for the decoded email with no id |
| Auth.LoginTokensVerify | src/auth/auth.service.ts:17-30 | with a sound JWT library, the login tokens verify to the access and the refresh payload of the user |
| Auth.RotateAccessTokenRejected | src/auth/auth.service.ts:93-95 | an access token from a login cannot be rotated |
| Auth.RotateRefreshToken | src/auth/auth.service.ts:89-102 | a refresh token from a login rotates to a token of the requested type that keeps the email |
| Auth.RotationLosesSubject | src/auth/auth.service.ts:96-101 | every rotated token verifies with an undefined `sub` |
| Auth.AuthenticateWithEmailAndPassword | src/auth/auth.service.ts:32-42 | rejects an unknown email and a failed comparison with their own messages, and otherwise returns the stored user |
| Auth.LoginWithEmail | src/auth/auth.service.ts:44-47 | login succeeds exactly when authentication does and returns the login tokens of the stored user; otherwise the authentication error |
| Auth.LoginWithEmailSubject | src/auth/auth.service.ts:44-47 | the refresh token of a successful login verifies to the stored user's email and id |
| Auth.ExtractTokenFromHeader | src/auth/auth.service.ts:55-63 | succeeds exactly when the header splits on `' '` into two parts, the first being `Bearer` or `Basic` as asked; the header is then `prefix + ' ' + token` with no space in the token |
| Auth.ExtractTokenRoundTrip | src/auth/auth.service.ts:56-62 | a token without a space is read back from `prefix + ' ' + token` |
| Auth.ExtractTokenIff | src/auth/auth.service.ts:55-63 | the header yields `token` exactly when it is the prefix, one space and `token`, and `token` has no space |
| Auth.DecodeBasicToken | src/auth/auth.service.ts:65-77 | succeeds exactly when the decoded text splits on `':'` into two parts; the text is then `email:password` with no `':'` in either part; otherwise Unauthorized |
| Auth.DecodeBasicTokenRoundTrip | src/auth/auth.service.ts:67-76 | credentials without `':'` are read back from `email:password` |
| Auth.ColonInPasswordRejected | src/auth/auth.service.ts:67-70 | a password that contains `':'` makes the Basic token invalid |
| Pipes.PasswordTransform | src/auth/pipe/password.pipe.ts:5-10 | rejects exactly the values whose string exceeds 8 characters (BadRequest); otherwise returns the string unchanged; `toString()` errors propagate |
| Pipes.MaxLengthTransform | src/auth/pipe/password.pipe.ts:15-20 | rejects exactly the values longer than `length`, with the limit in the message; otherwise returns the string unchanged |
| Pipes.MinLengthTransform | src/auth/pipe/password.pipe.ts:26-31 | rejects exactly the values shorter than `length`, with the limit in the message; otherwise returns the string unchanged |
| Pipes.MinAndMaxAcceptExactLength | src/auth/pipe/password.pipe.ts:13-32 | the bounds are inclusive: max and min of the same length together accept exactly the values of that length |
| Pipes.StringPassesUnchanged | src/auth/pipe/password.pipe.ts:13-32 | a string that fits passes both pipes as itself |
| Pipes.PasswordIsMaxEight | src/auth/pipe/password.pipe.ts:4-21 | PasswordPipe accepts and returns exactly what MaxLengthPipe(8) does; only the wording of the rejection differs |
| ValidationMessages.At | src/common/validation-message/length-validation.message.ts:7 | reading a constraint past the end gives undefined |
| ValidationMessages.LengthValidationMessage | src/common/validation-message/length-validation.message.ts:3-9 | the message starts with the property name; with exactly two constraints it is the range form naming both, otherwise the minimum form naming the first |
| ValidationMessages.RangeFormIffTwoConstraints | src/common/validation-message/length-validation.message.ts:4-8 | the message ends in the range wording exactly when there are two constraints, and in the minimum wording otherwise |
| ValidationMessages.MinimumFormIgnoresLaterConstraints | src/common/validation-message/length-validation.message.ts:6-7 | outside the two-bound case, constraints after the first do not affect the message |
| PaginatePostDto.Assign | src/posts/dto/paginate-post.dto.ts:4-21 | assigning a property makes it read as the new value, leaves every other property as it was, and keeps keys distinct |
| PaginatePostDto.Instantiate | src/posts/dto/paginate-post.dto.ts:4-21 | the instance has distinct properties: those of the query and the two initialised defaults |
| PaginatePostDto.InstantiateGet | src/posts/dto/paginate-post.dto.ts:4-21 | an instance's property is the query's value when the query has it, and the field default otherwise |
| PaginatePostDto.InstanceNumberField | src/posts/dto/paginate-post.dto.ts:6-20 | a numeric field of an instance is valid exactly when the query's own value for it is, if it has one |
| PaginatePostDto.InstanceOrderField | src/posts/dto/paginate-post.dto.ts:14-16 | the order of an instance is valid exactly when the query's own order is, if it has one |
| PaginatePostDto.IsValid | src/posts/dto/paginate-post.dto.ts:4-21 | a valid instance holds no string and no NaN in its numeric fields, and no falsy order other than undefined or null |
| PaginatePostDto.DefaultCursorKeyIsMoreThan | src/posts/dto/paginate-post.dto.ts:14-16 | without an order in the query the order is `'ASC'`, so the cursor key is `where__id__more_than` |
| PaginatePostDto.DefaultTakeIsTwenty | src/posts/dto/paginate-post.dto.ts:18-20 | without a take in the query the take is 20 |
| PaginatePostDto.InstantiateValid | src/posts/dto/paginate-post.dto.ts:4-21 | an instance is valid exactly when the query's id fields and take are absent, null or numbers and its order is absent, null, `'ASC'` or `'DESC'` |
| PaginatePostDto.DtoFieldParses | src/posts/dto/paginate-post.dto.ts:6-12 | `where__<field>` with no `__` in the field is an equality filter on that field |
| PaginatePostDto.IdMoreThanFieldIsEquality | src/posts/dto/paginate-post.dto.ts:6-8 | `where__id_more_than` is an equality filter on a field named `id_more_than`, not an id filter |
| PaginatePostDto.IdLessThanFieldIsEquality | src/posts/dto/paginate-post.dto.ts:10-12 | `where__id_less_than` is an equality filter on a field named `id_less_than`, not an id filter |

## Left out

- TypeORM semantics: what `find`, `findAndCount`, `findOne`, `save` and `delete` compute, and what `MoreThan` and `LessThan` mean. The repository is abstract, and the post table is a `map` from id to row.
- The contents of `FILTER_MAPPER`, and the constants `PROTOCOL`, `HOST`, `JWT_SECRET` and `HASH_ROUNDS`. They are not part of this model; the mapper and the secret are parameters. The next link is a path and a list of query pairs; the URL's scheme, host and percent-encoding are not modelled.
- Asynchrony: every `await` is a plain call.
- Library internals, which are parameters: JWT signing and verification (including expiry against a clock), base64 and UTF-8 decoding, bcrypt. `Auth.Sound` states the one property of the JWT library the lemmas rely on.
- Wiring and glue: NestJS decorators, dependency injection, modules, `posts.controller.ts` and `bearer-token.guard.ts`. The guard only reuses `extractTokenFromHeader` and `verifyToken`.
- `class-validator` and `class-transformer` execution: only the constraints are modelled, as predicates. `PaginatePostDto.Instantiate` assumes the request is transformed into a DTO instance; the application bootstrap is not part of this model.
- `create-post.dto.ts` and `string-validation.message.ts`: a type declaration, and a template with no branches. `update-post.dto.ts` is not part of this model; its two optional fields are taken from how `updatePost` reads it.
- `registerWithEmail` and `getAllPosts`: the first only chains bcrypt hashing, user creation (not part of this model) and `loginUser`; the second is a bare repository call.
- JavaScript numbers: only integers are modelled (no fractions, Infinity, exponent forms or -0). `Number("…")` is modelled for the empty string and for decimal digits with an optional `+` or `-` sign; surrounding whitespace, hexadecimal, binary (`0b…`), octal (`0o…`), fraction and exponent forms read as NaN in the model, although JavaScript accepts them. A string of only whitespace is also NaN in the model, where JavaScript gives 0.
- String length is `|s|` in characters, not UTF-16 code units.
- Property order: integer-like keys, which JavaScript enumerates first, are not special. Prototype keys such as `__proto__` are not modelled.
- The commented-out `between` and `i_like` branches of `parseWhereFilter`.
- Posts.PostsService.CreatePost: database ids are modelled as a counter `nextId` that only grows. The author relation is the author's id.
- Common.NextLinkFiltersById: a next link that repeats a key is not modelled. That happens when a DESC request carries a truthy `where__id__less_than`, which the echo keeps and the cursor appends again. The query parser reads a repeated key back as one array-valued property, so the echoed filter is not overridden. The model's `AsRequest` would keep two properties, so the lemma requires that the echo lacks the cursor key.
- Auth.RotateToken: the decoded payload's `iat` and `exp` are not modelled. They are copied by the spread, but `signToken` reads only `email` and `id`.
