/**
 * The `POST /users` handler of the API server (backend/src/server.js):
 * field validation, the e-mail/username conflict check, hash-and-insert,
 * and redaction of the stored password hash from the reply.
 *
 * The user table is a sequence of rows; Prisma's `findFirst` is the first
 * row in sequence order that matches, and `create` appends one row.
 * bcrypt (`genSalt` + `hash`) is a parameter `hash` of each call, since the
 * salt is random; nothing is claimed about it beyond "the stored value is
 * what `hash` returned".
 */
module UserRegistration {
  import opened Wrappers

  /** A row of the user table, with the columns the handler writes; `id` is the key the store generates. */
  datatype User = User(id: string, fullName: string, email: string, username: string, passwordHash: string)

  /** The 201 body: a row without its `passwordHash` column. */
  datatype PublicUser = PublicUser(id: string, fullName: string, email: string, username: string)

  /** The JSON body of the request; an absent field is `None`. */
  datatype Request = Request(fullName: Option<string>, email: Option<string>,
                             password: Option<string>, username: Option<string>)

  /** Which awaited call inside the handler's `try` block throws, if any. */
  datatype Fault = NoFault | LookupFault | HashFault | CreateFault

  datatype Body = ErrorBody(error: string) | UserBody(user: PublicUser)
  datatype Reply = Reply(status: nat, body: Body)

  /** The reply of one request together with the table it leaves behind. */
  datatype Outcome = Outcome(reply: Reply, table: seq<User>)

  const MissingFieldsMessage: string := "Por favor, preencha todos os campos obrigatórios."
  const FailureMessage: string := "Não foi possível completar o cadastro."
  const EmailLabel: string := "e-mail"
  const UsernameLabel: string := "nome de usuário"

  /** The 409 message `Este ${conflictField} já está em uso.`: the field name sits at a fixed place, so it can be read back. */
  function ConflictMessage(name: string): (m: string)
    ensures |m| == |name| + 21
    ensures m[..5] == "Este " && m[5..5 + |name|] == name && m[5 + |name|..] == " já está em uso."
  {
    "Este " + name + " já está em uso."
  }

  /**
   * The guard of the 400 reply, negated: all four required fields are truthy,
   * so each one is present with at least one character.
   */
  predicate Complete(req: Request)
    ensures Complete(req) ==>
      req.fullName.Some? && req.email.Some? && req.password.Some? && req.username.Some? &&
      |req.fullName.value| > 0 && |req.email.value| > 0 && |req.password.value| > 0 && |req.username.value| > 0
    ensures !Complete(req) ==>
      req.fullName == None || req.fullName == Some("") || req.email == None || req.email == Some("") ||
      req.password == None || req.password == Some("") || req.username == None || req.username == Some("")
  {
    Truthy(req.fullName) && Truthy(req.email) && Truthy(req.password) && Truthy(req.username)
  }

  /** The `where: { OR: [{ email }, { username }] }` filter. */
  predicate Matches(u: User, email: string, username: string) {
    u.email == email || u.username == username
  }

  /** `findFirst`: the index of the first row matching the filter, if any. */
  function FindFirst(table: seq<User>, email: string, username: string): (r: Option<nat>)
    ensures r.Some? ==> r.value < |table| && Matches(table[r.value], email, username)
    ensures r.Some? ==> forall k :: 0 <= k < r.value ==> !Matches(table[k], email, username)
    ensures r.None? <==> forall k :: 0 <= k < |table| ==> !Matches(table[k], email, username)
  {
    if |table| == 0 then None
    else if Matches(table[0], email, username) then Some(0)
    else
      match FindFirst(table[1..], email, username)
      case None => None
      case Some(i) => Some(i + 1)
  }

  /** The field named in the 409 message: e-mail exactly when the found row has the submitted e-mail. */
  function ConflictLabel(existing: User, email: string): (name: string)
    ensures name == EmailLabel || name == UsernameLabel
    ensures name == EmailLabel <==> existing.email == email
  {
    if existing.email == email then EmailLabel else UsernameLabel
  }

  /**
   * The reply body of a created row, `{ passwordHash: _, ...rest }`: it keeps
   * the id, name, e-mail and username, and has no place for the hash.
   */
  function Redact(u: User): (p: PublicUser)
    ensures p.id == u.id && p.fullName == u.fullName && p.email == u.email && p.username == u.username
  {
    PublicUser(u.id, u.fullName, u.email, u.username)
  }

  function Failed(table: seq<User>): Outcome {
    Outcome(Reply(500, ErrorBody(FailureMessage)), table)
  }

  /**
   * One request to `POST /users`, as a function of the table before it.
   * `newId` is the key the store would give a created row. The table
   * changes exactly when the reply is 201.
   */
  function Handle(table: seq<User>, req: Request, newId: string, hash: string -> string, fault: Fault): (out: Outcome)
    ensures out.reply.status in {201, 400, 409, 500}
    ensures out.table == table <==> out.reply.status != 201
  {
    if !Complete(req) then Outcome(Reply(400, ErrorBody(MissingFieldsMessage)), table)
    else if fault == LookupFault then Failed(table)
    else
      var email, username := req.email.value, req.username.value;
      match FindFirst(table, email, username)
      case Some(i) =>
        Outcome(Reply(409, ErrorBody(ConflictMessage(ConflictLabel(table[i], email)))), table)
      case None =>
        if fault == HashFault || fault == CreateFault then Failed(table)
        else
          var user := User(newId, req.fullName.value, email, username, hash(req.password.value));
          Outcome(Reply(201, UserBody(Redact(user))), table + [user])
  }

  /** No two rows share an e-mail, and no two share a username. */
  ghost predicate UniqueKeys(table: seq<User>) {
    forall i, j :: 0 <= i < j < |table| ==>
      table[i].email != table[j].email && table[i].username != table[j].username
  }

  /** No two rows share an id. */
  ghost predicate DistinctIds(table: seq<User>) {
    forall i, j :: 0 <= i < j < |table| ==> table[i].id != table[j].id
  }

  /** No row of the table has the key `id`. */
  ghost predicate IdFree(table: seq<User>, id: string) {
    forall i :: 0 <= i < |table| ==> table[i].id != id
  }

  ghost predicate ValidTable(table: seq<User>) {
    UniqueKeys(table) && DistinctIds(table)
  }

  // ---------------------------------------------------------------------
  // Properties of one request
  // ---------------------------------------------------------------------

  /** A missing or empty required field gives 400, and only then; the table is unchanged. */
  lemma IncompleteRejected(table: seq<User>, req: Request, newId: string, hash: string -> string, fault: Fault)
    ensures Handle(table, req, newId, hash, fault).reply.status == 400 <==> !Complete(req)
    ensures !Complete(req) ==>
      Handle(table, req, newId, hash, fault) == Outcome(Reply(400, ErrorBody(MissingFieldsMessage)), table)
  {
  }

  /**
   * With all fields present and the lookup succeeding, the reply is 409
   * exactly when some row already has the e-mail or the username; no row is created.
   */
  lemma ConflictRejected(table: seq<User>, req: Request, newId: string, hash: string -> string, fault: Fault)
    requires Complete(req) && fault != LookupFault
    ensures var out := Handle(table, req, newId, hash, fault);
      (out.reply.status == 409 <==>
        exists k :: 0 <= k < |table| && Matches(table[k], req.email.value, req.username.value))
      && (out.reply.status == 409 ==> out.table == table)
  {
  }

  /**
   * The 409 message names the field of the first matching row: "e-mail" when
   * that row has the submitted e-mail (so e-mail wins when it matches both),
   * "nome de usuário" otherwise, and then that row has the submitted username.
   */
  lemma ConflictNamesField(table: seq<User>, req: Request, newId: string, hash: string -> string, fault: Fault, i: nat)
    requires Complete(req) && fault != LookupFault
    requires FindFirst(table, req.email.value, req.username.value) == Some(i)
    ensures i < |table|
    ensures var found := table[i];
      Handle(table, req, newId, hash, fault).reply ==
        Reply(409, ErrorBody(ConflictMessage(if found.email == req.email.value then EmailLabel else UsernameLabel)))
      && (found.email != req.email.value ==> found.username == req.username.value)
  {
  }

  /**
   * The conflict message never names a field that is free: "e-mail" only when
   * some row has the e-mail, "nome de usuário" only when some row has the username.
   */
  lemma ConflictLabelSound(table: seq<User>, req: Request, newId: string, hash: string -> string, fault: Fault)
    requires Complete(req)
    ensures var reply := Handle(table, req, newId, hash, fault).reply;
      (reply == Reply(409, ErrorBody(ConflictMessage(EmailLabel))) ==>
        exists k :: 0 <= k < |table| && table[k].email == req.email.value)
      && (reply == Reply(409, ErrorBody(ConflictMessage(UsernameLabel))) ==>
        exists k :: 0 <= k < |table| && table[k].username == req.username.value)
  {
    var email, username := req.email.value, req.username.value;
    var reply := Handle(table, req, newId, hash, fault).reply;
    if reply.status == 409 {
      var i := FindFirst(table, email, username).value;
      var name := ConflictLabel(table[i], email);
      assert reply.body.error == ConflictMessage(name);
      if reply == Reply(409, ErrorBody(ConflictMessage(EmailLabel))) {
        MessageDeterminesLabel(name, EmailLabel);
        assert table[i].email == email;
      }
      if reply == Reply(409, ErrorBody(ConflictMessage(UsernameLabel))) {
        MessageDeterminesLabel(name, UsernameLabel);
        assert table[i].username == username;
      }
    }
  }

  /** Distinct field names give distinct messages. */
  lemma MessageDeterminesLabel(a: string, b: string)
    requires ConflictMessage(a) == ConflictMessage(b)
    ensures a == b
  {
  }

  /**
   * The reply is 201 exactly when every field is present, no row conflicts
   * and no stored call fails. Then exactly one row is appended, holding the
   * store's new id and the submitted name, e-mail and username with
   * `hash(password)`; all earlier rows are unchanged; the body is that row redacted.
   */
  lemma CreatesExactlyOne(table: seq<User>, req: Request, newId: string, hash: string -> string, fault: Fault)
    ensures var out := Handle(table, req, newId, hash, fault);
      out.reply.status == 201 <==>
        Complete(req) && fault == NoFault &&
        forall k :: 0 <= k < |table| ==> !Matches(table[k], req.email.value, req.username.value)
    ensures var out := Handle(table, req, newId, hash, fault);
      out.reply.status == 201 ==>
        var user := User(newId, req.fullName.value, req.email.value, req.username.value, hash(req.password.value));
        out.table == table + [user] &&
        |out.table| == |table| + 1 &&
        out.table[..|table|] == table &&
        out.reply.body == UserBody(Redact(user))
  {
  }

  /** A failure of the lookup, the hashing or the insert gives 500 (or the 409 decided before it) and changes nothing. */
  lemma StorageFailureUnchanged(table: seq<User>, req: Request, newId: string, hash: string -> string, fault: Fault)
    requires Complete(req) && fault != NoFault
    ensures var out := Handle(table, req, newId, hash, fault);
      out.table == table && out.reply.status in {409, 500} &&
      (fault == LookupFault ==> out.reply == Reply(500, ErrorBody(FailureMessage)))
  {
  }

  /** The public view determines a row up to its password hash, and nothing more. */
  lemma RedactIgnoresHash(u: User, v: User)
    ensures Redact(u) == Redact(v) <==> u.(passwordHash := v.passwordHash) == v
  {
  }

  /**
   * The reply never depends on the hash: two runs that differ only in what
   * `hash` returns give the same status and body, so the secret cannot leak into it.
   */
  lemma ReplyIndependentOfHash(table: seq<User>, req: Request, newId: string, h1: string -> string, h2: string -> string, fault: Fault)
    ensures Handle(table, req, newId, h1, fault).reply == Handle(table, req, newId, h2, fault).reply
  {
  }

  /** One request keeps e-mails and usernames unique. */
  lemma HandlePreservesUniqueKeys(table: seq<User>, req: Request, newId: string, hash: string -> string, fault: Fault)
    requires UniqueKeys(table)
    ensures UniqueKeys(Handle(table, req, newId, hash, fault).table)
  {
  }

  /**
   * One request also keeps ids distinct when the store's new key is not
   * already in use.
   */
  lemma HandlePreservesValid(table: seq<User>, req: Request, newId: string, hash: string -> string, fault: Fault)
    requires ValidTable(table) && IdFree(table, newId)
    ensures ValidTable(Handle(table, req, newId, hash, fault).table)
  {
  }

  // ---------------------------------------------------------------------
  // Sequences of requests
  // ---------------------------------------------------------------------

  /** One request with the store's key for it, its own hashing and its own fault. */
  datatype Call = Call(req: Request, newId: string, hash: string -> string, fault: Fault)

  function Step(table: seq<User>, c: Call): seq<User> {
    Handle(table, c.req, c.newId, c.hash, c.fault).table
  }

  /** The table after serving `calls` in order. */
  function Run(table: seq<User>, calls: seq<Call>): seq<User>
    decreases |calls|
  {
    if |calls| == 0 then table else Run(Step(table, calls[0]), calls[1..])
  }

  /** The store's keys for `calls` are pairwise distinct and none is already in `table`. */
  ghost predicate FreshKeys(table: seq<User>, calls: seq<Call>) {
    (forall i, j :: 0 <= i < j < |calls| ==> calls[i].newId != calls[j].newId) &&
    (forall i :: 0 <= i < |calls| ==> IdFree(table, calls[i].newId))
  }

  /** Starting from a table with unique e-mails and usernames, any sequence of registrations keeps both unique. */
  lemma {:induction false} RunPreservesUniqueKeys(table: seq<User>, calls: seq<Call>)
    requires UniqueKeys(table)
    ensures UniqueKeys(Run(table, calls))
    decreases |calls|
  {
    if |calls| > 0 {
      HandlePreservesUniqueKeys(table, calls[0].req, calls[0].newId, calls[0].hash, calls[0].fault);
      RunPreservesUniqueKeys(Step(table, calls[0]), calls[1..]);
    }
  }

  /**
   * Starting from a table with unique e-mails, usernames and ids, any sequence
   * of registrations whose generated keys are fresh keeps all three unique.
   */
  lemma {:induction false} RunPreservesValid(table: seq<User>, calls: seq<Call>)
    requires ValidTable(table) && FreshKeys(table, calls)
    ensures ValidTable(Run(table, calls))
    decreases |calls|
  {
    if |calls| > 0 {
      var c := calls[0];
      HandlePreservesValid(table, c.req, c.newId, c.hash, c.fault);
      var next := Step(table, c);
      forall i | 0 <= i < |calls[1..]|
        ensures IdFree(next, calls[1..][i].newId)
      {
        assert calls[1..][i] == calls[i + 1];
        if next != table {
          assert next == table + [next[|table|]] && next[|table|].id == c.newId;
        }
      }
      RunPreservesValid(next, calls[1..]);
    }
  }

  /** Registrations only ever append: the earlier table is a prefix of the later one. */
  lemma {:induction false} RunOnlyAppends(table: seq<User>, calls: seq<Call>)
    ensures |table| <= |Run(table, calls)|
    ensures Run(table, calls)[..|table|] == table
    decreases |calls|
  {
    if |calls| > 0 {
      var next := Step(table, calls[0]);
      assert next[..|table|] == table;
      RunOnlyAppends(next, calls[1..]);
      var r := Run(next, calls[1..]);
      assert r[..|table|] == r[..|next|][..|table|];
    }
  }

  // ---------------------------------------------------------------------
  // The table as updated in place by the handler
  // ---------------------------------------------------------------------

  /** The user table the handler reads with `findFirst` and writes with `create`. */
  class UserTable {
    var records: seq<User>

    ghost predicate Valid()
      reads this
    {
      ValidTable(records)
    }

    /** The table as the store holds it when the server starts; it may already have rows. */
    constructor (initial: seq<User>)
      requires ValidTable(initial)
      ensures Valid() && records == initial
    {
      records := initial;
    }

    /**
     * The handler, step by step: validate, look up, report a conflict, or hash
     * and insert. `newId` is the key the store generates for a created row,
     * one that no row has.
     */
    method Register(req: Request, newId: string, hash: string -> string, fault: Fault) returns (reply: Reply)
      requires Valid() && IdFree(records, newId)
      modifies this
      ensures Valid()
      ensures Outcome(reply, records) == Handle(old(records), req, newId, hash, fault)
    {
      if !Complete(req) {
        return Reply(400, ErrorBody(MissingFieldsMessage));
      }
      HandlePreservesValid(records, req, newId, hash, fault);
      if fault == LookupFault {
        return Reply(500, ErrorBody(FailureMessage));
      }
      var email, username := req.email.value, req.username.value;
      var existing := FindFirst(records, email, username);
      if existing.Some? {
        var name := ConflictLabel(records[existing.value], email);
        return Reply(409, ErrorBody(ConflictMessage(name)));
      }
      if fault == HashFault {
        return Reply(500, ErrorBody(FailureMessage));
      }
      var passwordHash := hash(req.password.value);
      if fault == CreateFault {
        return Reply(500, ErrorBody(FailureMessage));
      }
      var user := User(newId, req.fullName.value, email, username, passwordHash);
      records := records + [user];
      reply := Reply(201, UserBody(Redact(user)));
    }
  }
}
