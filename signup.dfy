/**
 * The signup endpoint: a short-circuiting pipeline of rate limiting, schema
 * validation, a duplicate-email check, password hashing, insertion and a
 * sanitized response. The account store is an in-memory map keyed by email;
 * email syntax and password hashing are collaborators passed in as functions;
 * failures of the store or the hash are passed in as Faults.
 */
module Signup {
  import opened Common
  import opened Decimal
  import opened RateLimit
  import opened ClientIdentity

  const EmailMessage: string := "Invalid email format"
  const PasswordMessage: string := "Password must be at least 8 characters"
  const NameMessage: string := "Name is required"
  const RequiredMessage: string := "Required"
  const DuplicateMessage: string := "An account with this email already exists"
  const InternalMessage: string := "Failed to create user"
  const CreatedMessage: string := "User created successfully"

  const MinPasswordLength: nat := 8
  const MinNameLength: nat := 1
  const MsPerMinute: nat := 60 * 1000

  // ---------------------------------------------------------------------------
  // The body and `signupSchema`

  /** One property of the JSON body as the schema sees it. */
  datatype Field = Absent | Text(text: string) | NonText(kind: string)

  /** A JSON value: an object with the three properties, or some other kind of value. */
  datatype Payload = NonObject(kind: string) | Object(email: Field, password: Field, name: Field)

  /** `await request.json()`: a value, or a body that is not JSON. */
  datatype Body = Malformed | Parsed(payload: Payload)

  /** What a successful schema parse hands on. */
  datatype Candidate = Candidate(email: string, password: string, name: string)

  predicate LongEnough(s: string, min: nat) {
    |s| >= min
  }

  /** The issues one string property raises: a type issue, or its single check failing. */
  function FieldIssues(f: Field, passes: bool, message: string): seq<string> {
    match f
    case Absent => [RequiredMessage]
    case NonText(kind) => ["Expected string, received " + kind]
    case Text(_) => if passes then [] else [message]
  }

  predicate EmailPasses(f: Field, isEmail: string -> bool) {
    f.Text? && isEmail(f.text)
  }

  predicate LengthPasses(f: Field, min: nat) {
    f.Text? && LongEnough(f.text, min)
  }

  /**
   * Every issue the schema reports, in the order it reports them: the
   * properties in declaration order (email, password, name).
   */
  function Issues(p: Payload, isEmail: string -> bool): seq<string> {
    match p
    case NonObject(kind) => ["Expected object, received " + kind]
    case Object(e, pw, n) =>
      FieldIssues(e, EmailPasses(e, isEmail), EmailMessage)
      + FieldIssues(pw, LengthPasses(pw, MinPasswordLength), PasswordMessage)
      + FieldIssues(n, LengthPasses(n, MinNameLength), NameMessage)
  }

  /** One property's check on its own: its text, or the message of its first issue. */
  function CheckField(f: Field, passes: bool, message: string): (r: Result<string>)
    ensures r.Success? <==> FieldIssues(f, passes, message) == []
    ensures r.Failure? ==> r.error == FieldIssues(f, passes, message)[0]
    ensures r.Success? ==> f == Text(r.value)
  {
    match f
    case Absent => Failure(RequiredMessage)
    case NonText(kind) => Failure("Expected string, received " + kind)
    case Text(s) => if passes then Success(s) else Failure(message)
  }

  /**
   * `signupSchema.parse` followed by `error.errors[0].message`: the candidate,
   * or the message of the first issue only.
   */
  function Validate(p: Payload, isEmail: string -> bool): (r: Result<Candidate>)
    ensures r.Success? <==> Issues(p, isEmail) == []
    ensures r.Failure? ==> r.error == Issues(p, isEmail)[0]
    ensures r.Success? ==> p == Object(Text(r.value.email), Text(r.value.password), Text(r.value.name))
  {
    match p
    case NonObject(kind) => Failure("Expected object, received " + kind)
    case Object(e, pw, n) =>
      match CheckField(e, EmailPasses(e, isEmail), EmailMessage)
      case Failure(m) => Failure(m)
      case Success(email) =>
        match CheckField(pw, LengthPasses(pw, MinPasswordLength), PasswordMessage)
        case Failure(m) => Failure(m)
        case Success(password) =>
          match CheckField(n, LengthPasses(n, MinNameLength), NameMessage)
          case Failure(m) => Failure(m)
          case Success(name) => Success(Candidate(email, password, name))
  }

  /** A body passes the schema exactly when all three properties are strings meeting their rules. */
  lemma ValidateSucceedsIff(p: Payload, isEmail: string -> bool)
    ensures Validate(p, isEmail).Success? <==>
      && p.Object? && p.email.Text? && p.password.Text? && p.name.Text?
      && isEmail(p.email.text)
      && |p.password.text| >= MinPasswordLength
      && |p.name.text| >= MinNameLength
  {
  }

  /** First error wins, in the order email format, password length, name presence. */
  lemma FirstIssueWins(email: string, password: string, name: string, isEmail: string -> bool)
    ensures !isEmail(email) ==>
      Validate(Object(Text(email), Text(password), Text(name)), isEmail) == Failure(EmailMessage)
    ensures isEmail(email) && |password| < MinPasswordLength ==>
      Validate(Object(Text(email), Text(password), Text(name)), isEmail) == Failure(PasswordMessage)
    ensures isEmail(email) && |password| >= MinPasswordLength && name == [] ==>
      Validate(Object(Text(email), Text(password), Text(name)), isEmail) == Failure(NameMessage)
  {
  }

  /** An invalid email and a three-character password report the email issue. */
  lemma InvalidEmailReportedBeforeShortPassword(isEmail: string -> bool)
    requires !isEmail("invalid-email")
    ensures Validate(Object(Text("invalid-email"), Text("123"), Text("Test User")), isEmail) == Failure(EmailMessage)
  {
  }

  // ---------------------------------------------------------------------------
  // Accounts and responses

  /** A stored account; `password` holds the hash, never the plaintext. */
  datatype User = User(id: nat, email: string, password: string, name: string)

  /** The columns the insert selects back: no password field at all. */
  datatype PublicUser = PublicUser(id: nat, email: string, name: string)

  /** `select: { id: true, email: true, name: true }`. */
  function Select(u: User): PublicUser {
    PublicUser(u.id, u.email, u.name)
  }

  /** Two accounts have the same public view exactly when they differ at most in the stored hash. */
  lemma SelectForgetsOnlyPassword(u: User, v: User)
    ensures Select(u) == Select(v) <==> u.(password := v.password) == v
  {
  }

  /**
   * The store keeps each account under its own email, and ids are distinct and
   * below the id generator's next value.
   */
  predicate StoreInvariant(users: map<string, User>, issued: nat) {
    && (forall e :: e in users ==> users[e].email == e && users[e].id < issued)
    && (forall e1, e2 :: e1 in users && e2 in users && e1 != e2 ==> users[e1].id != users[e2].id)
  }

  datatype ResponseBody =
    | ErrorBody(error: string)
    | RetryBody(error: string, retryAfter: int)
    | CreatedBody(user: PublicUser, message: string)

  /** Status, JSON body and the `Retry-After` header (security headers are not modelled). */
  datatype Response = Response(status: nat, body: ResponseBody, retryAfterHeader: Option<string>)

  function RetryMessage(minutes: int): string {
    "Too many signup attempts. Please try again in " + IntToString(minutes) + " minutes."
  }

  /** The 429 reply for a refused client, `remainingMs` before its window ends. */
  function TooManyAttempts(remainingMs: int): (r: Response)
    ensures r.status == 429 && r.body.RetryBody? && r.body.retryAfter == remainingMs
    ensures r.retryAfterHeader == Some(IntToString(remainingMs))
    ensures exists minutes :: MsPerMinute * (minutes - 1) < remainingMs <= MsPerMinute * minutes
                              && r.body.error == RetryMessage(minutes)
  {
    var minutes := CeilDiv(remainingMs, MsPerMinute);
    Response(429, RetryBody(RetryMessage(minutes), remainingMs), Some(IntToString(remainingMs)))
  }

  function BadRequest(message: string): Response {
    Response(400, ErrorBody(message), None)
  }

  function InternalError(): Response {
    Response(500, ErrorBody(InternalMessage), None)
  }

  function Created(user: PublicUser): Response {
    Response(201, CreatedBody(user, CreatedMessage), None)
  }

  // ---------------------------------------------------------------------------
  // The pipeline as a function of the state

  /** Email syntax and the password hash, both outside this model. */
  datatype Collaborators = Collaborators(isEmail: string -> bool, hash: string -> string)

  /** Which external calls throw on this request. */
  datatype Faults = Faults(lookupFails: bool, hashFails: bool, createFails: bool)

  /** Everything the endpoint reads and writes: the limiter's table and the store. */
  datatype State = State(attempts: Table, users: map<string, User>, issued: nat)

  predicate ValidState(st: State) {
    Bounded(st.attempts) && StoreInvariant(st.users, st.issued)
  }

  /** Steps after admission, on the store alone: parse, validate, look up, hash, insert. */
  function Register(users: map<string, User>, issued: nat, body: Body, deps: Collaborators, faults: Faults)
    : (Response, map<string, User>, nat)
  {
    if body.Malformed? then (InternalError(), users, issued)
    else
      match Validate(body.payload, deps.isEmail)
      case Failure(message) => (BadRequest(message), users, issued)
      case Success(c) =>
        if faults.lookupFails then (InternalError(), users, issued)
        else if c.email in users then (BadRequest(DuplicateMessage), users, issued)
        else if faults.hashFails || faults.createFails then (InternalError(), users, issued)
        else
          var user := User(issued, c.email, deps.hash(c.password), c.name);
          (Created(Select(user)), users[c.email := user], issued + 1)
  }

  /** One POST to the signup endpoint: its response and the state it leaves. */
  function Signup(st: State, headers: Headers, body: Body, now: int, deps: Collaborators, faults: Faults): (Response, State) {
    var client := ClientIdentifier(headers);
    var admission := Admit(st.attempts, client, now);
    if admission.limited then
      (TooManyAttempts(ResetTime(admission.table, client) - now), st.(attempts := admission.table))
    else
      var (r, users, issued) := Register(st.users, st.issued, body, deps, faults);
      (r, State(admission.table, users, issued))
  }

  /** A request keeps the limiter's and the store's invariants. */
  lemma SignupKeepsInvariants(st: State, headers: Headers, body: Body, now: int, deps: Collaborators, faults: Faults)
    requires ValidState(st)
    ensures ValidState(Signup(st, headers, body, now, deps, faults).1)
  {
    AdmitKeepsBounded(st.attempts, ClientIdentifier(headers), now);
  }

  /**
   * The attempt is counted first, whatever the body: the limiter's table after
   * the request depends only on the client and the clock, so invalid payloads
   * use up attempts too.
   */
  lemma AttemptCountedBeforeValidation(st: State, headers: Headers, body: Body, now: int, deps: Collaborators, faults: Faults)
    ensures Signup(st, headers, body, now, deps, faults).1.attempts
         == Admit(st.attempts, ClientIdentifier(headers), now).table
  {
  }

  /**
   * A refused client gets 429 with the time left in its window, in the body and
   * in the header, and the minutes rounded up in the message; the body is not
   * looked at and the store is untouched.
   */
  lemma RateLimitedReply(st: State, headers: Headers, body: Body, other: Body, now: int, deps: Collaborators, faults: Faults)
    requires Admit(st.attempts, ClientIdentifier(headers), now).limited
    ensures var (r, st') := Signup(st, headers, body, now, deps, faults);
      var client := ClientIdentifier(headers);
      && client in st.attempts
      && r == TooManyAttempts(st.attempts[client].resetTime - now)
      && r.body.retryAfter >= 0
      && st' == st
      && r == Signup(st, headers, other, now, deps, faults).0
  {
    RefusedRequest(st, headers, body, now, deps, faults);
    RefusedRequest(st, headers, other, now, deps, faults);
  }

  /** The refused branch of Signup, with the table left as it was. */
  lemma RefusedRequest(st: State, headers: Headers, body: Body, now: int, deps: Collaborators, faults: Faults)
    requires Admit(st.attempts, ClientIdentifier(headers), now).limited
    ensures var client := ClientIdentifier(headers);
      && client in st.attempts
      && now <= st.attempts[client].resetTime
      && Signup(st, headers, body, now, deps, faults) == (TooManyAttempts(st.attempts[client].resetTime - now), st)
  {
    var client := ClientIdentifier(headers);
    var a := Admit(st.attempts, client, now);
    assert Signup(st, headers, body, now, deps, faults)
        == (TooManyAttempts(ResetTime(a.table, client) - now), st.(attempts := a.table));
    assert a.table == st.attempts;
    assert ResetTime(a.table, client) == st.attempts[client].resetTime;
  }

  /**
   * A body that fails the schema gets 400 with the first issue's message, the
   * store is neither read nor written, so store failures cannot show.
   */
  lemma ValidationFailureReply(st: State, headers: Headers, p: Payload, now: int, deps: Collaborators, faults: Faults, otherFaults: Faults)
    requires !Admit(st.attempts, ClientIdentifier(headers), now).limited
    requires Issues(p, deps.isEmail) != []
    ensures var (r, st') := Signup(st, headers, Parsed(p), now, deps, faults);
      && r == BadRequest(Issues(p, deps.isEmail)[0])
      && st'.users == st.users && st'.issued == st.issued
      && r == Signup(st, headers, Parsed(p), now, deps, otherFaults).0
  {
  }

  /** An email already in the store gets 400 with the duplicate message and no insert. */
  lemma DuplicateReply(st: State, headers: Headers, p: Payload, now: int, deps: Collaborators, faults: Faults)
    requires !Admit(st.attempts, ClientIdentifier(headers), now).limited
    requires Validate(p, deps.isEmail).Success? && Validate(p, deps.isEmail).value.email in st.users
    requires !faults.lookupFails
    ensures var (r, st') := Signup(st, headers, Parsed(p), now, deps, faults);
      r == BadRequest(DuplicateMessage) && st'.users == st.users && st'.issued == st.issued
  {
  }

  /**
   * Success adds exactly one account, under the new email, with the hashed
   * password, and answers 201 with that account's public columns only.
   */
  lemma SuccessReply(st: State, headers: Headers, p: Payload, now: int, deps: Collaborators)
    requires !Admit(st.attempts, ClientIdentifier(headers), now).limited
    requires Validate(p, deps.isEmail).Success?
    requires p.email.text !in st.users
    ensures var (r, st') := Signup(st, headers, Parsed(p), now, deps, Faults(false, false, false));
      var user := User(st.issued, p.email.text, deps.hash(p.password.text), p.name.text);
      && r.status == 201
      && r.body == CreatedBody(Select(user), CreatedMessage)
      && st'.users == st.users[p.email.text := user]
      && st'.users.Keys == st.users.Keys + {p.email.text}
      && st'.issued == st.issued + 1
  {
  }

  /** The steps after admission answer 201, 400 or 500, and only 201 adds an account. */
  lemma RegisterOutcomes(users: map<string, User>, issued: nat, body: Body, deps: Collaborators, faults: Faults)
    ensures var (r, users', issued') := Register(users, issued, body, deps, faults);
      && r.status in {201, 400, 500}
      && (r.status == 500 ==> r == InternalError())
      && (r.status == 400 ==> r.body.ErrorBody?)
      && (r.status == 201 ==> r.body.CreatedBody?)
      && (r.status != 201 ==> users' == users && issued' == issued)
      && (r.status == 201 ==> users'.Keys == users.Keys + {body.payload.email.text}
                              && body.payload.email.text !in users)
  {
  }

  /** Every other failure is 500 with the fixed message, and no account is added. */
  lemma StatusesAndEffects(st: State, headers: Headers, body: Body, now: int, deps: Collaborators, faults: Faults)
    ensures var (r, st') := Signup(st, headers, body, now, deps, faults);
      && r.status in {201, 400, 429, 500}
      && (r.status == 500 ==> r == InternalError())
      && (r.status == 429 <==> r.body.RetryBody?)
      && (r.status == 201 <==> r.body.CreatedBody?)
      && (r.status != 201 ==> st'.users == st.users && st'.issued == st.issued)
      && (r.status == 201 ==> |st'.users.Keys| == |st.users.Keys| + 1)
  {
    var a := Admit(st.attempts, ClientIdentifier(headers), now);
    if !a.limited {
      RegisterOutcomes(st.users, st.issued, body, deps, faults);
    }
  }

  /** Signing up twice with one email: the second attempt to get past the limiter is a duplicate. */
  lemma SecondSignupIsDuplicate(st: State, h1: Headers, p1: Payload, now1: int,
                                h2: Headers, p2: Payload, now2: int,
                                deps: Collaborators, faults: Faults)
    requires Signup(st, h1, Parsed(p1), now1, deps, Faults(false, false, false)).0.status == 201
    requires var st1 := Signup(st, h1, Parsed(p1), now1, deps, Faults(false, false, false)).1;
      !Admit(st1.attempts, ClientIdentifier(h2), now2).limited
    requires Validate(p2, deps.isEmail).Success? && p2.email == p1.email
    requires !faults.lookupFails
    ensures var st1 := Signup(st, h1, Parsed(p1), now1, deps, Faults(false, false, false)).1;
      Signup(st1, h2, Parsed(p2), now2, deps, faults).0 == BadRequest(DuplicateMessage)
  {
  }

  /**
   * No password in the output: two requests that differ only in the password,
   * with the same length verdict, get the same response.
   */
  lemma ResponseIgnoresPassword(st: State, headers: Headers, email: Field, name: Field,
                                pw1: string, pw2: string, now: int, deps: Collaborators, faults: Faults)
    requires (|pw1| >= MinPasswordLength) == (|pw2| >= MinPasswordLength)
    ensures Signup(st, headers, Parsed(Object(email, Text(pw1), name)), now, deps, faults).0
         == Signup(st, headers, Parsed(Object(email, Text(pw2), name)), now, deps, faults).0
  {
  }

  /** The worked example: a fresh client on an empty store gets 201 and the account is stored hashed. */
  lemma FirstSignupExample(deps: Collaborators, client: Headers, now: int)
    requires deps.isEmail("a@b.com")
    ensures var (r, st') := Signup(State(map[], map[], 0), client,
                                   Parsed(Object(Text("a@b.com"), Text("password123"), Text("A"))),
                                   now, deps, Faults(false, false, false));
      && r == Created(PublicUser(0, "a@b.com", "A"))
      && st'.users == map["a@b.com" := User(0, "a@b.com", deps.hash("password123"), "A")]
  {
    assert |"password123"| >= MinPasswordLength;
  }

  // ---------------------------------------------------------------------------
  // The imperative endpoint over the limiter object and the store object

  /** The account store: accounts keyed by email and the id generator's next value. */
  class UserStore {
    var users: map<string, User>
    var issued: nat

    ghost predicate Valid()
      reads this
    {
      StoreInvariant(users, issued)
    }

    constructor ()
      ensures Valid() && users == map[] && issued == 0
    {
      users := map[];
      issued := 0;
    }

    /** `findUnique({ where: { email } })`. */
    method FindUnique(email: string) returns (found: Option<User>)
      requires Valid()
      ensures found.Some? <==> email in users
      ensures found.Some? ==> found.value == users[email] && found.value.email == email
    {
      found := if email in users then Some(users[email]) else None;
    }

    /**
     * `create` selecting the public columns: a fresh id, the account stored
     * under its email; the store's own uniqueness constraint refuses a taken email.
     */
    method Create(email: string, password: string, name: string) returns (created: Result<PublicUser>)
      requires Valid()
      modifies this
      ensures Valid()
      ensures email in old(users) ==> created.Failure? && users == old(users) && issued == old(issued)
      ensures email !in old(users) ==>
        && created == Success(PublicUser(old(issued), email, name))
        && users == old(users)[email := User(old(issued), email, password, name)]
        && issued == old(issued) + 1
    {
      if email in users {
        return Failure("Unique constraint failed on the fields: (`email`)");
      }
      users := users[email := User(issued, email, password, name)];
      created := Success(PublicUser(issued, email, name));
      issued := issued + 1;
    }
  }

  /** `POST`: the pipeline step by step, each step able to end the request. */
  method Post(limiter: RateLimiter, store: UserStore, headers: Headers, body: Body, now: int,
              deps: Collaborators, faults: Faults) returns (response: Response)
    requires limiter.Valid() && store.Valid()
    modifies limiter, store
    ensures limiter.Valid() && store.Valid()
    ensures (response, State(limiter.attempts, store.users, store.issued))
         == Signup(State(old(limiter.attempts), old(store.users), old(store.issued)), headers, body, now, deps, faults)
  {
    ghost var st0 := State(limiter.attempts, store.users, store.issued);
    var clientIp := ClientIdentifier(headers);
    var limited := limiter.IsRateLimited(clientIp, now);
    ghost var admission := Admit(st0.attempts, clientIp, now);
    assert admission.limited == limited && admission.table == limiter.attempts;
    if limited {
      var resetTime := limiter.GetResetTime(clientIp);
      var remainingMs := resetTime - now;
      response := TooManyAttempts(remainingMs);
      assert Signup(st0, headers, body, now, deps, faults)
          == (TooManyAttempts(ResetTime(admission.table, clientIp) - now), st0.(attempts := admission.table));
      return;
    }
    response := Accept(store, body, deps, faults);
    assert (response, store.users, store.issued) == Register(st0.users, st0.issued, body, deps, faults);
  }

  /** The steps of `POST` after the limiter has admitted the request. */
  method Accept(store: UserStore, body: Body, deps: Collaborators, faults: Faults) returns (response: Response)
    requires store.Valid()
    modifies store
    ensures store.Valid()
    ensures (response, store.users, store.issued) == Register(old(store.users), old(store.issued), body, deps, faults)
  {
    if body.Malformed? {
      return InternalError();
    }
    var parsed := Validate(body.payload, deps.isEmail);
    if parsed.Failure? {
      return BadRequest(parsed.error);
    }
    var candidate := parsed.value;
    if faults.lookupFails {
      return InternalError();
    }
    var existing := store.FindUnique(candidate.email);
    if existing.Some? {
      return BadRequest(DuplicateMessage);
    }
    if faults.hashFails {
      return InternalError();
    }
    var hashedPassword := deps.hash(candidate.password);
    if faults.createFails {
      return InternalError();
    }
    var created := store.Create(candidate.email, hashedPassword, candidate.name);
    if created.Failure? {
      return InternalError();
    }
    return Created(created.value);
  }
}
