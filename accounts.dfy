/** The user and role handlers of the service: the sign-up/login upsert
    (`POST /user`, index.js:308-334), the become-seller request
    (index.js:344-355), the admin's role update (index.js:372-380) and the two
    role gates (index.js:60-80). The email a gate checks, the email that asks
    to become a seller and the `caller` of a role update are verified token
    emails; the email of `POST /user` and the target email of a role update
    come from the unauthenticated request body. */
module Accounts {
  import opened Records

  const CUSTOMER := "customer"
  const ADMIN := "admin"
  const SELLER := "seller"

  /** A user is stored under its own email. */
  predicate KeyedByEmail(users: map<Email, User>)
  {
    forall e :: e in users ==> users[e].email == e
  }

  /** No email occurs twice among the seller requests. */
  predicate NoDuplicates(requests: seq<Email>)
  {
    forall i, j :: 0 <= i < j < |requests| ==> requests[i] != requests[j]
  }

  /** What a role gate answers: continue, or 403 with the stored role (absent
      when no user is stored under the email). */
  datatype Gate = Pass | Forbidden(role: Option<string>)

  /** The check shared by the two role middlewares: the stored role of the
      user found under `email` must be `required`. */
  function RoleGate(users: map<Email, User>, email: Email, required: string): Gate
  {
    if email in users && users[email].role == required then Pass
    else Forbidden(if email in users then Some(users[email].role) else None)
  }

  /** `verifyADMIN`. */
  function VerifyAdmin(users: map<Email, User>, email: Email): (g: Gate)
    ensures g == Pass <==> email in users && users[email].role == ADMIN
    ensures g.Forbidden? && email in users ==> g.role == Some(users[email].role)
    ensures g.Forbidden? && email !in users ==> g.role == None
  {
    RoleGate(users, email, ADMIN)
  }

  /** `verifySELLER`. */
  function VerifySeller(users: map<Email, User>, email: Email): (g: Gate)
    ensures g == Pass <==> email in users && users[email].role == SELLER
    ensures g.Forbidden? && email in users ==> g.role == Some(users[email].role)
    ensures g.Forbidden? && email !in users ==> g.role == None
  {
    RoleGate(users, email, SELLER)
  }

  /** The users table after `POST /user`, and whether the user was new. */
  datatype Saved = Saved(users: map<Email, User>, inserted: bool)

  /** Sign-up or login: a new email is stored as a customer with both
      timestamps set; for a known email only the last-login time moves.
      `now` stands for the clock reads of the request. */
  function UpsertUser(users: map<Email, User>, email: Email, fields: map<string, string>, now: string): (r: Saved)
    ensures r.inserted <==> email !in users
    ensures r.users.Keys == users.Keys + {email}
    ensures forall e :: e in users && e != email ==> r.users[e] == users[e]
    ensures r.users[email].lastLoggedIn == now
    ensures !r.inserted ==> r.users[email] == users[email].(lastLoggedIn := now)
    ensures r.inserted ==> r.users[email] == User(email, fields, now, now, CUSTOMER)
    ensures KeyedByEmail(users) ==> KeyedByEmail(r.users)
  {
    if email in users then Saved(users[email := users[email].(lastLoggedIn := now)], false)
    else Saved(users[email := User(email, fields, now, now, CUSTOMER)], true)
  }

  /** What `POST /become-seller` answers: the insert, or 409. */
  datatype Request = Requested | AlreadyRequested

  /** The seller requests after `POST /become-seller`, and the answer. */
  datatype Requests = Requests(requests: seq<Email>, answer: Request)

  /** A request is appended only when none exists for the email. */
  function RequestSeller(requests: seq<Email>, email: Email): (r: Requests)
    ensures r.answer == AlreadyRequested <==> email in requests
    ensures r.answer == AlreadyRequested ==> r.requests == requests
    ensures r.answer == Requested ==> r.requests == requests + [email]
    ensures email in r.requests
    ensures NoDuplicates(requests) ==> NoDuplicates(r.requests)
  {
    if email in requests then Requests(requests, AlreadyRequested)
    else Requests(requests + [email], Requested)
  }

  /** `deleteOne({email})`: the first request for the email goes, the others
      stay in order. */
  function RemoveFirst(requests: seq<Email>, email: Email): (r: seq<Email>)
    ensures email !in requests ==> r == requests
    ensures email in requests ==> multiset(r) == multiset(requests) - multiset{email}
  {
    if requests == [] then []
    else
      assert requests == [requests[0]] + requests[1..];
      if requests[0] == email then requests[1..]
      else [requests[0]] + RemoveFirst(requests[1..], email)
  }

  /** When requests have no duplicates, deleting one request for an email
      leaves none for it, and still no duplicates. */
  lemma {:induction false} RemoveFirstClears(requests: seq<Email>, email: Email)
    requires NoDuplicates(requests)
    ensures NoDuplicates(RemoveFirst(requests, email))
    ensures email !in RemoveFirst(requests, email)
  {
    if requests != [] && requests[0] != email {
      var rest := requests[1..];
      assert NoDuplicates(rest);
      RemoveFirstClears(rest, email);
      var tail := RemoveFirst(rest, email);
      assert requests[0] !in rest;
      assert multiset(tail)[requests[0]] == 0;
    }
  }

  /** The position of the first request for `email`. */
  function FirstIndex(requests: seq<Email>, email: Email): (i: nat)
    requires email in requests
    ensures i < |requests| && requests[i] == email && email !in requests[..i]
  {
    if requests[0] == email then 0
    else
      var j := FirstIndex(requests[1..], email);
      assert requests[..j + 1] == [requests[0]] + requests[1..][..j];
      j + 1
  }

  /** Cutting out position `j + 1` of `s` is keeping its head and cutting
      position `j` out of its tail. */
  lemma CutAfterHead<T>(s: seq<T>, j: nat)
    requires j + 1 < |s|
    ensures s[..j + 1] + s[j + 2..] == [s[0]] + (s[1..][..j] + s[1..][j + 1..])
  {
    assert s[..j + 1] == [s[0]] + s[1..][..j];
    assert s[j + 2..] == s[1..][j + 1..];
  }

  /** The request `deleteOne` removes is the first one for the email, and
      the requests before and after it keep their order. */
  lemma {:induction false} RemoveFirstKeepsOrder(requests: seq<Email>, email: Email)
    requires email in requests
    ensures var i := FirstIndex(requests, email);
      RemoveFirst(requests, email) == requests[..i] + requests[i + 1..]
  {
    if requests[0] == email {
      assert requests[..0] + requests[1..] == requests[1..];
    } else {
      var rest := requests[1..];
      assert email in rest;
      RemoveFirstKeepsOrder(rest, email);
      CutAfterHead(requests, FirstIndex(rest, email));
    }
  }

  /** Deleting one request leaves a second one for the same email in place:
      it is the absence of duplicates that makes the deletion complete. */
  lemma RemoveFirstLeavesDuplicate()
    ensures RemoveFirst(["a@example.com", "a@example.com"], "a@example.com") == ["a@example.com"]
  {
  }

  /** The tables after `PATCH /update-role`, and the admin gate's answer. */
  datatype RoleUpdate = RoleUpdate(users: map<Email, User>, requests: seq<Email>, gate: Gate)

  /** An admin `caller` sets the role of the user stored under `email` (if
      any) and deletes one seller request for that email; anyone else is
      turned away with nothing changed. */
  function UpdateRole(users: map<Email, User>, requests: seq<Email>, caller: Email, email: Email, role: string): (r: RoleUpdate)
    ensures r.gate == VerifyAdmin(users, caller)
    ensures r.gate.Forbidden? ==> r.users == users && r.requests == requests
    ensures r.gate == Pass ==> r.requests == RemoveFirst(requests, email)
    ensures r.gate == Pass && email in users ==> r.users == users[email := users[email].(role := role)]
    ensures r.gate == Pass && email !in users ==> r.users == users
    ensures KeyedByEmail(users) ==> KeyedByEmail(r.users)
  {
    var gate := VerifyAdmin(users, caller);
    if gate.Forbidden? then RoleUpdate(users, requests, gate)
    else
      var updated := if email in users then users[email := users[email].(role := role)] else users;
      RoleUpdate(updated, RemoveFirst(requests, email), gate)
  }

  /** After an admin sets a stored user's role to `role`, the gate for that
      role lets the user through; in particular promotion to seller or admin
      opens `verifySELLER` or `verifyADMIN`. */
  lemma UpdateRoleOpensGate(users: map<Email, User>, requests: seq<Email>, caller: Email, email: Email, role: string)
    requires VerifyAdmin(users, caller) == Pass && email in users
    ensures RoleGate(UpdateRole(users, requests, caller, email, role).users, email, role) == Pass
    ensures role == SELLER ==> VerifySeller(UpdateRole(users, requests, caller, email, role).users, email) == Pass
    ensures role == ADMIN ==> VerifyAdmin(UpdateRole(users, requests, caller, email, role).users, email) == Pass
  {
  }

  /** A newly signed-up user passes neither role gate. */
  lemma NewUserIsUnprivileged(users: map<Email, User>, email: Email, fields: map<string, string>, now: string)
    requires email !in users
    ensures VerifyAdmin(UpsertUser(users, email, fields, now).users, email) == Forbidden(Some(CUSTOMER))
    ensures VerifySeller(UpsertUser(users, email, fields, now).users, email) == Forbidden(Some(CUSTOMER))
  {
  }

  /** Logging in again never changes what any role gate answers. */
  lemma LoginKeepsGates(users: map<Email, User>, email: Email, fields: map<string, string>, now: string, who: Email, role: string)
    requires email in users
    ensures RoleGate(UpsertUser(users, email, fields, now).users, who, role) == RoleGate(users, who, role)
  {
  }

  /** A seller request followed by the admin's role update for that email
      leaves no request for it, starting from requests without duplicates. */
  lemma RequestThenUpdateLeavesNoRequest(users: map<Email, User>, requests: seq<Email>, caller: Email, email: Email, role: string)
    requires NoDuplicates(requests) && VerifyAdmin(users, caller) == Pass
    ensures var asked := RequestSeller(requests, email).requests;
      email in asked && email !in UpdateRole(users, asked, caller, email, role).requests
  {
    RemoveFirstClears(RequestSeller(requests, email).requests, email);
  }
}
