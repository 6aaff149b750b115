# Blog backend: upload paths and request handlers

This project models the core of a small Express blogging backend in Dafny and
proves properties of the model.

- `upload_path.dfy`, module `UploadPath`: the upload path builder.
  `splitLastOccurrence(str, substring)` keeps everything from the character
  just after the start of the last occurrence of the separator, and
  `newPath(path, str, substring = ".")` appends a dot and that suffix to the temporary path of an
  uploaded file. JavaScript's `lastIndexOf` and `slice` are modelled with
  their JavaScript meaning: an empty separator is found at the end of the
  string, an absent one at -1, and a slice that starts past the end is empty.
  The default separator is a Dafny default parameter value, so
  `NewPath(p, s)` is `NewPath(p, s, ".")`.
- `blog.dfy`, module `Blog`: the handlers of `POST /register`, `POST /login`,
  `GET /profile`, `POST /logout`, `POST /newpost` and `PUT /post/:id` as
  methods of a `Server`. Its fields are the user store (keyed by username,
  the unique key of the user schema), the post store (keyed by post id), the
  last value written to the `token` cookie, and the list of file renames.
  Ids are handed out by counters. Token signing and verification and password
  hashing and comparison are functions the server is constructed with.
  Signing and verification may fail; what else is assumed about them is
  listed under "Left out". The guards (password length, the
  `token === ""` test, the author equality, the issued-at arithmetic, the
  cover choice and the update document) are pure functions.

A handler ends in one of three ways: `Reply(status, body)`; `NoReply(logged)`,
where the failure is only logged and no response is sent (every failure of
`PUT /post/:id`); or `Unhandled(failure)`, where a throw escapes the handler
and is left to the framework's default error handler (a failed token
verification in `GET /profile`).

Two behaviours of the code that one might expect to be otherwise are kept
as written:

- For an original name without the separator, one might expect the
  extension to be the name minus its first character. The code's
  `lastIndexOf` gives -1 and `slice(0)` keeps the whole name, so `"noext"`
  becomes `"/tmp/abc.noext"`
  (`NewPathKeepsWholeNameWithoutDot`).
- The registration gate refuses passwords shorter than five characters,
  while its message says "atleast 6". The model keeps the check as written
  (index.js:50-52), so a five-character password is accepted.

## Model

| member | source | states |
|---|---|---|
| `UploadPath.LastIndexOf` | scripts/splitLastOccurrence.js:2 | the result is -1 exactly when the separator does not occur; otherwise the separator occurs there and at no later index |
| `UploadPath.SliceFrom` | scripts/splitLastOccurrence.js:4 | `slice(start)` is a suffix of the string, of length `len - start`, or empty past the end |
| `UploadPath.SplitLastOccurrence` | scripts/splitLastOccurrence.js:1-7 | the result is a suffix of the input; with the separator absent it is the whole input; with an empty separator it is empty |
| `UploadPath.SplitAfterLastOccurrence` | scripts/splitLastOccurrence.js:2-4 | when the last occurrence starts at `i`, the result is the input from `i + 1` on |
| `UploadPath.SplitHasNoSeparatorChar` | scripts/splitLastOccurrence.js:2-4 | with a one-character separator, the result never contains that character |
| `UploadPath.SplitKeepsSeparatorTail` | scripts/splitLastOccurrence.js:4 | with a longer separator that occurs, the result starts with the separator minus its first character |
| `UploadPath.NewPath` | scripts/splitLastOccurrence.js:9-12 | the result starts with `path + "."`, has the length of the path plus one plus the length of the split, ends in a suffix of the name, is `path + "." + name` when the separator is absent, and holds no separator character after the dot for a one-character separator |
| `UploadPath.NewPathTrailingDot` | scripts/splitLastOccurrence.js:2-10 | a name ending in "." gives exactly `path + "."` |
| `UploadPath.NewPathKeepsExtension` | scripts/splitLastOccurrence.js:9-11 | `"photo.png"` uploaded to `"/tmp/abc"` gives `"/tmp/abc.png"` |
| `UploadPath.NewPathKeepsWholeNameWithoutDot` | scripts/splitLastOccurrence.js:2-4 | `"noext"` uploaded to `"/tmp/abc"` gives `"/tmp/abc.noext"`, the whole name |
| `Blog.PasswordGate` | index.js:50-52 | a password is refused, with "Password must be atleast 6 characters", exactly when it is shorter than 5 characters |
| `Blog.LoggedOut` | index.js:102 | only a cookie of exactly "" counts as logged out; an absent cookie does not (the same test stands at index.js:118 and index.js:182) |
| `Blog.MergeKeepsAuthorship` | index.js:189-207 | `IsAuthor`, the author guard of index.js:189 as value equality of ids, has the same outcome before and after any update |
| `Blog.IssuedAt` | index.js:87 | the issued-at claim is the whole second 30 seconds before the current time: `(iat + 30) * 1000 <= now < (iat + 31) * 1000` |
| `Blog.CoverFor` | index.js:56-61 | no file gives `"/uploads/profile-pic-dummy.png"`; a file gives its temporary path, a dot, and the suffix of its original name after the last dot (the whole name when it has none): a dot-free suffix of the name, of exactly that split's length |
| `Blog.EditFor` | index.js:194-207 | the update document sets title, summary and content, and holds a cover exactly when a file was uploaded |
| `Blog.Merge` | index.js:201-207 | applying the update keeps the author, sets the fields present in the document and leaves the cover as it was when the document has none |
| `Blog.Server.constructor` | index.js:10-14 | a server starts with empty stores, no cookie written and no files moved, using the given signing, verification, hashing and comparison |
| `Blog.Server.Register` | index.js:46-71 | a weak password is refused and nothing changes; otherwise the upload is moved (`MovesFor`: a file, and only a file, is renamed from its temporary path to its cover path), a taken name is refused leaving the users as they were, and a new name is stored with a fresh id, the password's hash, the content and the chosen cover |
| `Blog.Server.Login` | index.js:73-98 | an unknown name and a password mismatch fail with their messages and write no cookie; on a match the claims of name, stored id and issued-at time are signed; a signing failure is refused with its reason and writes no cookie, otherwise the cookie is set to the token and the reply carries the public fields |
| `Blog.Server.Profile` | index.js:100-109 | a cookie of exactly "" gives null; any other cookie, absent included, is verified and gives its claims, and a verification failure escapes the handler; nothing changes |
| `Blog.Server.Logout` | index.js:111-113 | the cookie is set to "" and the reply is "ok" |
| `Blog.Server.NewPost` | index.js:115-137 | a cookie of "", a rejected token and a missing file each fail with nothing changed; otherwise the file is moved (`MovesFor`) and a post is added under a fresh id with the verified id as author |
| `Blog.Server.UpdatePost` | index.js:178-213 | every failure, including an editor who fails `IsAuthor` (the stored author and the verified id are not the same value), sends no reply and changes nothing; the author's update moves the upload, if any (`MovesFor`), and sets title, summary and content, and the cover only with a file; the only reply ever sent is 200 "ok" |
| `Blog.Server.RegisterTwice` | index.js:56-66 | a second registration under a name fails with the duplicate-name error and the name keeps the user stored first |
| `Blog.Server.LoginThenProfile` | index.js:86-108 | if every token that signing produces is non-empty and verifies to its claims, the profile after a successful login is the claims with the stored user's id |

## Left out

- `GET /post`, `GET /post/:id` and `GET /author/:id` (index.js:139-176): their bodies are database queries (population of the author, sorting, the limit of 20, the password projection) whose behaviour belongs to the database library.
- Token signing and verification, password hashing with its salt and comparison: foreign libraries, passed to `Server` as functions. Signing and verification may fail with a reason; hashing and comparison never fail.
- A verification that succeeds is assumed to give a well-formed claim set whose `id` is a user id. The verification library returns whatever payload was signed, so a token signed elsewhere with the same secret could lack an `id`; the post created by `/newpost` would then have no author, and the author test of `PUT /post/:id` would compare against an undefined value. The model does not capture such tokens.
- Blog.Server.Profile: an absent cookie is handed to the injected verifier like any other value; the verification library always rejects it, which the model does not assume.
- Blog.Server.LoginThenProfile: holds only under its stated assumption about the signing and verification functions.
- File renames always succeed; a failing rename (missing source, unwritable destination) and its error reply are not modelled.
- Console logging is not modelled, except that `NoReply` names the failure `PUT /post/:id` logs.
- Request fields are always strings: a missing `password` (whose `.length` would throw) or other missing body fields are not modelled.
- Lengths count Unicode characters, not the UTF-16 code units JavaScript counts.
- models/users.js declares only `username` and `password`; under the database library's default strict mode `content` and `cover` would not be persisted. The model stores what the handler passes.
- The post schema (models/newPost.js) is not part of this model, so `Post.create` never fails in the model; likewise `user.save()` fails only on a duplicate name.
- Post ids are natural numbers, so a malformed id (which the database library rejects with a cast error, also only logged) cannot be expressed.
- Concurrency: requests are handled one at a time; a post removed between lookup and update is not modelled.
- Database connection, middleware (CORS, JSON and cookie parsing, multipart parsing, static files) and process start-up (index.js:1-44, 215-221).
