/**
 * The "ensure client exists" endpoint: given an auth user id and email, it creates the
 * user's `clients` row unless one already exists. The lookup and the insert run against
 * the store; their failures, the JSON parse failure and the new row's id and timestamp are
 * parameters.
 */
module InitRoute {
  import opened Common
  import opened Seqs
  import opened Text
  import opened Rows
  import opened Http

  /** The fields read from the body; anything absent, `null` or not a string is `None`. */
  datatype InitBody = InitBody(userId: Option<string>, email: Option<string>, name: Option<string>)

  datatype InitFaults = InitFaults(parseFails: bool, fetchFails: bool, insertFails: bool)

  /** `name || (email.split('@')[0] || 'Client')`. */
  function DefaultName(name: Option<string>, email: string): (r: string)
    ensures r != ""
    ensures Truthy(name) ==> r == name.value
    ensures !Truthy(name) && (email == "" || email[0] == '@') ==> r == "Client"
    ensures !Truthy(name) && email != "" && email[0] != '@' ==>
      '@' !in r && |r| <= |email| && email[..|r|] == r && (|r| == |email| || email[|r|] == '@')
  {
    if Truthy(name) then name.value
    else
      var local := BeforeFirst(email, '@');
      if local == "" then "Client" else local
  }

  /** For an address `local@domain` with a non-empty local part and no name, the name is the local part. */
  lemma DefaultNameIsLocalPart(local: string, domain: string)
    requires local != "" && '@' !in local
    ensures DefaultName(None, local + "@" + domain) == local
  {
    BeforeFirstOfJoin(local, '@', domain);
    assert local + "@" + domain == local + ['@'] + domain;
  }

  /** The row the endpoint inserts. */
  function NewClient(id: string, userId: string, email: string, name: Option<string>, createdAt: Option<int>): Client {
    Client(id, Some(userId), DefaultName(name, email), email, None, "client", createdAt)
  }

  const MissingFields: Response := Failure(400, "Missing user_id or email")
  const CheckFailed: Response := Failure(500, "Failed to check client")
  const CreateFailed: Response := Failure(500, "Failed to create client")

  /**
   * `POST /api/client/init`. The lookup is `.maybeSingle()` without a limit, so two or more
   * rows for the user are an error just as a failed read is.
   */
  function Init(store: Store, body: InitBody, f: InitFaults, newId: string, createdAt: Option<int>): (r: (Response, Store))
    ensures f.parseFails ==> r == (ServerError, store)
    ensures !f.parseFails && (!Truthy(body.userId) || !Truthy(body.email)) ==> r == (MissingFields, store)
    ensures r.0 == Success || r.1 == store
    ensures r.1 == store ||
      (Truthy(body.userId) && Truthy(body.email) && ClientsOfUser(store, body.userId.value) == [] &&
       r.1 == store.(clients := store.clients + [NewClient(newId, body.userId.value, body.email.value, body.name, createdAt)]))
    ensures r.0 == Success <==>
      !f.parseFails && Truthy(body.userId) && Truthy(body.email) && !f.fetchFails &&
      (|ClientsOfUser(store, body.userId.value)| == 1 || (ClientsOfUser(store, body.userId.value) == [] && !f.insertFails))
    ensures r.0 != Success ==> r.0 in {ServerError, MissingFields, CheckFailed, CreateFailed}
  {
    if f.parseFails then (ServerError, store)
    else if !Truthy(body.userId) || !Truthy(body.email) then (MissingFields, store)
    else
      var existing := ClientsOfUser(store, body.userId.value);
      if f.fetchFails || |existing| > 1 then (CheckFailed, store)
      else if |existing| == 1 then (Success, store)
      else if f.insertFails then (CreateFailed, store)
      else (Success, store.(clients := store.clients + [NewClient(newId, body.userId.value, body.email.value, body.name, createdAt)]))
  }

  /** Appending a row changes only the matching user's rows, by that one row. */
  lemma ClientsOfUserAfterAppend(store: Store, row: Client, u: string)
    ensures ClientsOfUser(store.(clients := store.clients + [row]), u) ==
      ClientsOfUser(store, u) + (if row.userId == Some(u) then [row] else [])
  {
    var p := (c: Client) => c.userId == Some(u);
    FilterAppend(store.clients, [row], p);
    assert Filter([row][1..], p) == [];
  }

  /** No user ever has more rows after the call than before, and a user with none gains at most one. */
  lemma InitKeepsOneRowPerUser(store: Store, body: InitBody, f: InitFaults, newId: string, createdAt: Option<int>, u: string)
    ensures var after := Init(store, body, f, newId, createdAt).1;
      |ClientsOfUser(after, u)| == |ClientsOfUser(store, u)| ||
      (ClientsOfUser(store, u) == [] && |ClientsOfUser(after, u)| == 1)
  {
    var after := Init(store, body, f, newId, createdAt).1;
    if after != store {
      ClientsOfUserAfterAppend(store, NewClient(newId, body.userId.value, body.email.value, body.name, createdAt), u);
    }
  }

  /** Idempotence: a second call for the same user after a successful one writes nothing and succeeds. */
  lemma InitIsIdempotent(store: Store, body: InitBody, f1: InitFaults, f2: InitFaults,
                         id1: string, id2: string, t1: Option<int>, t2: Option<int>)
    requires Init(store, body, f1, id1, t1).0 == Success
    requires !f2.parseFails && !f2.fetchFails
    ensures var s1 := Init(store, body, f1, id1, t1).1;
      Init(s1, body, f2, id2, t2) == (Success, s1)
    ensures var s1 := Init(store, body, f1, id1, t1).1;
      |ClientsOfUser(Init(s1, body, f2, id2, t2).1, body.userId.value)| == 1
  {
    var s1 := Init(store, body, f1, id1, t1).1;
    var u := body.userId.value;
    if ClientsOfUser(store, u) == [] {
      ClientsOfUserAfterAppend(store, NewClient(id1, u, body.email.value, body.name, t1), u);
    }
    assert |ClientsOfUser(s1, u)| == 1;
  }
}
