/** The request handlers of the blogging backend: registration, login, the
    profile and logout endpoints, post creation and post update.

    The handlers are methods on a `Server` whose fields are the user store
    (keyed by username, which the store keeps unique), the post store, the
    last value written to the `token` cookie and the list of uploaded files
    moved so far. Token signing and verification and password hashing and
    comparison are foreign code: they are functions the server is built
    with. Signing and verification may fail; a verification that succeeds
    gives a well-formed claim set. The guards the handlers apply are pure
    functions beside them. */
module Blog {
  import UploadPath

  type UserId = nat
  type PostId = nat

  datatype Option<T> = None | Some(value: T)

  /** What a foreign call (token signing or verification) gives back: the
      value, or the reason the call threw. */
  datatype Result<T> = Ok(value: T) | Err(reason: string)

  /** The claim set of a session token. */
  datatype Claims = Claims(username: string, id: UserId, iat: int)

  /** A stored user; `hash` is the password digest. */
  datatype User = User(id: UserId, hash: string, content: string, cover: string)

  /** A stored post; `author` refers to a user id. */
  datatype Post = Post(title: string, summary: string, content: string, cover: string, author: UserId)

  /** An uploaded file: where the upload middleware put it, and its name on
      the client. */
  datatype Upload = Upload(path: string, originalname: string)

  /** A file rename performed by a handler. */
  datatype Move = Move(from: string, to: string)

  /** The update document handed to the post store: the fields it sets; a
      cover of `None` is a key that is not in the document. */
  datatype Edit = Edit(title: string, summary: string, content: string, cover: Option<string>)

  /** Why a handler stopped. */
  datatype Failure =
    | Thrown(message: string)       // an Error the handler throws itself
    | TokenRejected(reason: string) // token verification threw
    | SigningFailed(reason: string) // token signing threw
    | DuplicateUsername             // the store refused a second user of that name
    | NoUpload                      // the handler read the fields of an absent file
    | NoSuchPost                    // the handler read the author of an absent post

  /** The JSON body of a reply. */
  datatype Body =
    | Text(text: string)
    | Null
    | ClaimsOf(claims: Claims)
    | Account(username: string, id: UserId, cover: string, content: string)
    | ErrorOf(failure: Failure)

  /** How a request ends: a reply with a status and a body; no reply at all,
      the failure only logged; or a failure left to the framework's default
      error handler. */
  datatype Response =
    | Reply(status: nat, body: Body)
    | NoReply(logged: Failure)
    | Unhandled(failure: Failure)

  const DEFAULT_COVER := "/uploads/profile-pic-dummy.png"
  const MIN_PASSWORD_LENGTH: nat := 5
  const ISSUED_AT_BACKDATE: nat := 30
  const WEAK_PASSWORD := "Password must be atleast 6 characters"
  const UNKNOWN_USER := "Cant find user in db"
  const BAD_CREDENTIALS := "Uesrname password don't match"
  const NOT_LOGGED_IN := "user must be logged in to create post"
  const NOT_AUTHOR := "Author and editor are different"

  /** The registration password gate: a password shorter than five
      characters is refused (although the message asks for six). */
  function PasswordGate(password: string): (r: Option<Failure>)
    ensures r.None? <==> |password| >= MIN_PASSWORD_LENGTH
    ensures r.Some? ==> r.value == Thrown(WEAK_PASSWORD)
  {
    if |password| < MIN_PASSWORD_LENGTH then Some(Thrown(WEAK_PASSWORD)) else None
  }

  /** The session check of `/profile` and `/newpost`: only a cookie holding
      exactly the empty string counts as logged out; an absent cookie does
      not. */
  predicate LoggedOut(token: Option<string>): (r: bool)
    ensures token.None? ==> !r
    ensures r <==> token.Some? && |token.value| == 0
  {
    token == Some("")
  }

  /** The issued-at claim of a token issued at `nowMs` milliseconds: whole
      seconds, thirty of them before now. */
  function IssuedAt(nowMs: nat): (iat: int)
    ensures (iat + ISSUED_AT_BACKDATE) * 1000 <= nowMs < (iat + ISSUED_AT_BACKDATE + 1) * 1000
  {
    nowMs / 1000 - ISSUED_AT_BACKDATE
  }

  /** The cover recorded for an upload: the fixed placeholder when there is
      no file, and otherwise the file's temporary path extended by "." and
      the original name's extension. */
  function CoverFor(file: Option<Upload>): (cover: string)
    ensures file.None? ==> cover == DEFAULT_COVER
    ensures file.Some? ==>
      var path := file.value.path;
      |path| + 1 <= |cover| && cover[..|path| + 1] == path + "." &&
      |cover| == |path| + 1 + |UploadPath.SplitLastOccurrence(file.value.originalname, ".")| &&
      '.' !in cover[|path| + 1..] &&
      UploadPath.IsSuffix(cover[|path| + 1..], file.value.originalname)
  {
    match file
    case None => DEFAULT_COVER
    case Some(f) => UploadPath.NewPath(f.path, f.originalname)
  }

  /** The renames a handler performs for an upload: the file, if any, is
      moved to its cover path. */
  function MovesFor(file: Option<Upload>): seq<Move>
  {
    if file.Some? then [Move(file.value.path, CoverFor(file))] else []
  }

  /** The update document of `PUT /post/:id`: title, summary and content
      always, a cover only when a file was uploaded. */
  function EditFor(title: string, summary: string, content: string, file: Option<Upload>): (e: Edit)
    ensures e.title == title && e.summary == summary && e.content == content
    ensures e.cover.Some? <==> file.Some?
    ensures e.cover.Some? ==> e.cover.value == CoverFor(file)
  {
    Edit(title, summary, content, if file.Some? then Some(CoverFor(file)) else None)
  }

  /** The post after the store applies an update document: the fields the
      document holds are set, every other field keeps its value. */
  function Merge(p: Post, e: Edit): (q: Post)
    ensures q.author == p.author
    ensures q.title == e.title && q.summary == e.summary && q.content == e.content
    ensures e.cover.None? ==> q.cover == p.cover
    ensures e.cover.Some? ==> q.cover == e.cover.value
  {
    match e.cover
    case None => p.(title := e.title, summary := e.summary, content := e.content)
    case Some(c) => p.(title := e.title, summary := e.summary, content := e.content, cover := c)
  }

  /** The author guard of `PUT /post/:id`: the stored author and the id in
      the verified token are the same value. */
  predicate IsAuthor(p: Post, claims: Claims)
  {
    p.author == claims.id
  }

  /** An update never changes who may edit a post: the editor is the
      author of the merged post exactly when they were the author before. */
  lemma MergeKeepsAuthorship(p: Post, e: Edit, claims: Claims)
    ensures IsAuthor(Merge(p, e), claims) <==> IsAuthor(p, claims)
  {
  }

  class Server {
    /** Token signing, with the process-wide secret; it fails, for one,
        when no secret is configured. */
    const sign: Claims -> Result<string>
    /** Token verification of the request's cookie (`None` when the request
        carries no `token` cookie). */
    const verify: Option<string> -> Result<Claims>
    /** Password hashing, with the process-wide salt. */
    const hash: string -> string
    /** Comparison of a password with a stored digest. */
    const compare: (string, string) -> bool

    var users: map<string, User>
    var posts: map<PostId, Post>
    /** The last value written to the `token` cookie, if any. */
    var cookie: Option<string>
    /** The uploaded files moved so far, in order. */
    var moves: seq<Move>
    var nextUserId: UserId
    var nextPostId: PostId

    /** Ids handed out by the stores are below the next one to hand out. */
    ghost predicate Valid()
      reads this
    {
      && (forall name :: name in users ==> users[name].id < nextUserId)
      && (forall id :: id in posts ==> id < nextPostId)
    }

    constructor (sign: Claims -> Result<string>, verify: Option<string> -> Result<Claims>,
                 hash: string -> string, compare: (string, string) -> bool)
      ensures Valid()
      ensures this.sign == sign && this.verify == verify
      ensures this.hash == hash && this.compare == compare
      ensures users == map[] && posts == map[] && cookie == None && moves == []
    {
      this.sign := sign;
      this.verify := verify;
      this.hash := hash;
      this.compare := compare;
      users, posts, cookie, moves := map[], map[], None, [];
      nextUserId, nextPostId := 0, 0;
    }

    /** `POST /register`. A weak password is refused before anything else
        happens. Otherwise the upload, if any, is moved before the user is
        saved, so it stays moved when the name is already taken. The stored
        record holds the password's digest and the cover for the upload. */
    method Register(username: string, password: string, content: string, file: Option<Upload>)
      returns (resp: Response)
      requires Valid()
      modifies this`users, this`nextUserId, this`moves
      ensures Valid()
      ensures PasswordGate(password).Some? ==>
        resp == Reply(400, ErrorOf(Thrown(WEAK_PASSWORD))) && unchanged(this)
      ensures PasswordGate(password).None? ==> moves == old(moves) + MovesFor(file)
      ensures PasswordGate(password).None? && username in old(users) ==>
        && resp == Reply(400, ErrorOf(DuplicateUsername))
        && users == old(users) && nextUserId == old(nextUserId)
      ensures PasswordGate(password).None? && username !in old(users) ==>
        && resp == Reply(200, Text("ok"))
        && (forall name :: name in old(users) ==> old(users)[name].id != old(nextUserId))
        && users == old(users)[username := User(old(nextUserId), hash(password), content, CoverFor(file))]
        && nextUserId == old(nextUserId) + 1
    {
      var weak := PasswordGate(password);
      if weak.Some? {
        return Reply(400, ErrorOf(weak.value));
      }
      var digest := hash(password);
      var cover := DEFAULT_COVER;
      if file.Some? {
        cover := UploadPath.NewPath(file.value.path, file.value.originalname);
        moves := moves + [Move(file.value.path, cover)];
      }
      if username in users {
        return Reply(400, ErrorOf(DuplicateUsername));
      }
      users := users[username := User(nextUserId, digest, content, cover)];
      nextUserId := nextUserId + 1;
      resp := Reply(200, Text("ok"));
    }

    /** `POST /login`. An unknown name and a wrong password are refused with
        their own messages and write no cookie. Otherwise a token is signed
        for the stored user's id, issued thirty seconds in the past; if
        signing fails the request is refused and no cookie is written, and
        if it succeeds the cookie is set to the token and the reply carries
        the user's public fields. */
    method Login(username: string, password: string, nowMs: nat) returns (resp: Response)
      requires Valid()
      modifies this`cookie
      ensures Valid()
      ensures username !in users ==>
        resp == Reply(400, ErrorOf(Thrown(UNKNOWN_USER))) && cookie == old(cookie)
      ensures username in users && !compare(password, users[username].hash) ==>
        resp == Reply(400, ErrorOf(Thrown(BAD_CREDENTIALS))) && cookie == old(cookie)
      ensures username in users && compare(password, users[username].hash) ==>
        var u := users[username];
        var signed := sign(Claims(username, u.id, IssuedAt(nowMs)));
        && (signed.Err? ==>
              resp == Reply(400, ErrorOf(SigningFailed(signed.reason))) && cookie == old(cookie))
        && (signed.Ok? ==>
              cookie == Some(signed.value) && resp == Reply(200, Account(username, u.id, u.cover, u.content)))
    {
      if username !in users {
        return Reply(400, ErrorOf(Thrown(UNKNOWN_USER)));
      }
      var u := users[username];
      if compare(password, u.hash) {
        var signed := sign(Claims(username, u.id, IssuedAt(nowMs)));
        if signed.Err? {
          return Reply(400, ErrorOf(SigningFailed(signed.reason)));
        }
        cookie := Some(signed.value);
        resp := Reply(200, Account(username, u.id, u.cover, u.content));
      } else {
        resp := Reply(400, ErrorOf(Thrown(BAD_CREDENTIALS)));
      }
    }

    /** `GET /profile`. Only a cookie holding exactly "" gives a null
        profile; anything else, an absent cookie included, is verified, and
        a verification failure is not caught by the handler. */
    method Profile(token: Option<string>) returns (resp: Response)
      ensures LoggedOut(token) ==> resp == Reply(200, Null)
      ensures !LoggedOut(token) && verify(token).Ok? ==>
        resp == Reply(200, ClaimsOf(verify(token).value))
      ensures !LoggedOut(token) && verify(token).Err? ==>
        resp == Unhandled(TokenRejected(verify(token).reason))
    {
      if LoggedOut(token) {
        resp := Reply(200, Null);
      } else {
        match verify(token)
        case Ok(claims) => resp := Reply(200, ClaimsOf(claims));
        case Err(reason) => resp := Unhandled(TokenRejected(reason));
      }
    }

    /** `POST /logout`: the cookie is overwritten with "". */
    method Logout() returns (resp: Response)
      requires Valid()
      modifies this`cookie
      ensures Valid()
      ensures cookie == Some("") && resp == Reply(200, Text("ok"))
    {
      cookie := Some("");
      resp := Reply(200, Text("ok"));
    }

    /** `POST /newpost`. A cookie holding "" is refused before anything
        happens, as are a token that fails verification and a request
        without a file. Otherwise the file is moved and a post is created
        under a fresh id, its author the id in the verified token. */
    method NewPost(token: Option<string>, file: Option<Upload>, title: string, content: string, summary: string)
      returns (resp: Response)
      requires Valid()
      modifies this`posts, this`nextPostId, this`moves
      ensures Valid()
      ensures LoggedOut(token) ==>
        resp == Reply(400, ErrorOf(Thrown(NOT_LOGGED_IN))) && unchanged(this)
      ensures !LoggedOut(token) && verify(token).Err? ==>
        resp == Reply(400, ErrorOf(TokenRejected(verify(token).reason))) && unchanged(this)
      ensures !LoggedOut(token) && verify(token).Ok? && file.None? ==>
        resp == Reply(400, ErrorOf(NoUpload)) && unchanged(this)
      ensures !LoggedOut(token) && verify(token).Ok? && file.Some? ==>
        && resp == Reply(200, Text("ok"))
        && moves == old(moves) + MovesFor(file)
        && old(nextPostId) !in old(posts)
        && posts == old(posts)[old(nextPostId) := Post(title, summary, content, CoverFor(file), verify(token).value.id)]
        && nextPostId == old(nextPostId) + 1
    {
      if LoggedOut(token) {
        return Reply(400, ErrorOf(Thrown(NOT_LOGGED_IN)));
      }
      var verified := verify(token);
      if verified.Err? {
        return Reply(400, ErrorOf(TokenRejected(verified.reason)));
      }
      var claims := verified.value;
      if file.None? {
        return Reply(400, ErrorOf(NoUpload));
      }
      var cover := UploadPath.NewPath(file.value.path, file.value.originalname);
      moves := moves + [Move(file.value.path, cover)];
      posts := posts[nextPostId := Post(title, summary, content, cover, claims.id)];
      nextPostId := nextPostId + 1;
      resp := Reply(200, Text("ok"));
    }

    /** `PUT /post/:id`. Every failure (a cookie holding "", a token that
        fails verification, an absent post, an editor who is not the
        author) is only logged: no reply is sent and nothing changes. For
        the author, the upload, if any, is moved, and title, summary and
        content are set; the cover is set only when a file was uploaded. */
    method UpdatePost(id: PostId, token: Option<string>, file: Option<Upload>,
                      title: string, content: string, summary: string)
      returns (resp: Response)
      requires Valid()
      modifies this`posts, this`moves
      ensures Valid()
      ensures resp.Reply? ==> resp == Reply(200, Text("ok"))
      ensures LoggedOut(token) ==>
        resp == NoReply(Thrown(NOT_LOGGED_IN)) && unchanged(this)
      ensures !LoggedOut(token) && verify(token).Err? ==>
        resp == NoReply(TokenRejected(verify(token).reason)) && unchanged(this)
      ensures !LoggedOut(token) && verify(token).Ok? && id !in old(posts) ==>
        resp == NoReply(NoSuchPost) && unchanged(this)
      ensures !LoggedOut(token) && verify(token).Ok? && id in old(posts) &&
              !IsAuthor(old(posts)[id], verify(token).value) ==>
        resp == NoReply(Thrown(NOT_AUTHOR)) && unchanged(this)
      ensures !LoggedOut(token) && verify(token).Ok? && id in old(posts) &&
              IsAuthor(old(posts)[id], verify(token).value) ==>
        && resp == Reply(200, Text("ok"))
        && moves == old(moves) + MovesFor(file)
        && posts == old(posts)[id := Merge(old(posts)[id], EditFor(title, summary, content, file))]
    {
      if LoggedOut(token) {
        return NoReply(Thrown(NOT_LOGGED_IN));
      }
      var verified := verify(token);
      if verified.Err? {
        return NoReply(TokenRejected(verified.reason));
      }
      var claims := verified.value;
      if id !in posts {
        return NoReply(NoSuchPost);
      }
      if !IsAuthor(posts[id], claims) {
        return NoReply(Thrown(NOT_AUTHOR));
      }
      var edit := Edit(title, summary, content, None);
      if file.Some? {
        var cover := UploadPath.NewPath(file.value.path, file.value.originalname);
        moves := moves + [Move(file.value.path, cover)];
        edit := edit.(cover := Some(cover));
      }
      posts := posts[id := Merge(posts[id], edit)];
      resp := Reply(200, Text("ok"));
    }

    /** Two registrations under one name, both with passwords the gate
        accepts: the second is refused by the store, and the user the name
        maps to is the one stored first (or the one already there). */
    method RegisterTwice(username: string, password1: string, content1: string, file1: Option<Upload>,
                         password2: string, content2: string, file2: Option<Upload>)
      returns (first: Response, second: Response)
      requires Valid()
      requires |password1| >= MIN_PASSWORD_LENGTH && |password2| >= MIN_PASSWORD_LENGTH
      modifies this`users, this`nextUserId, this`moves
      ensures Valid()
      ensures second == Reply(400, ErrorOf(DuplicateUsername))
      ensures username in old(users) ==> first == second && users == old(users)
      ensures username !in old(users) ==>
        && first == Reply(200, Text("ok"))
        && users == old(users)[username := User(old(nextUserId), hash(password1), content1, CoverFor(file1))]
      ensures moves == old(moves) + MovesFor(file1) + MovesFor(file2)
    {
      first := Register(username, password1, content1, file1);
      second := Register(username, password2, content2, file2);
    }

    /** A successful login followed by a request carrying the cookie it set:
        provided every token the server manages to sign is non-empty and
        verifies to the claims it was signed with, the profile is those
        claims, with the stored user's id. */
    method LoginThenProfile(username: string, password: string, nowMs: nat)
      returns (login: Response, profile: Response)
      requires Valid()
      requires forall c :: sign(c).Ok? ==> sign(c).value != "" && verify(Some(sign(c).value)) == Ok(c)
      modifies this`cookie
      ensures Valid()
      ensures login.Reply? && login.status == 200 ==>
        && username in users
        && profile == Reply(200, ClaimsOf(Claims(username, users[username].id, IssuedAt(nowMs))))
    {
      login := Login(username, password, nowMs);
      profile := Profile(cookie);
    }
  }
}
