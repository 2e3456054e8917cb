/** `createClientAction`: the signed-in check, the client schema, then the insert. The
    signed-in user is an input (`None` when nobody is signed in); the form is the text
    of its five fields, `None` for a field the form did not send. */
module ClientActions {
  import opened Wrappers
  import opened Text
  import opened Db
  import opened InvoiceValidation
  import opened ClientQueries
  import opened Usage
  import opened SubscriptionQueries

  datatype ClientForm = ClientForm(
    name: Option<string>,
    email: Option<string>,
    phone: Option<string>,
    company: Option<string>,
    address: Option<string>)

  /** `ClientActionState`: an error, the schema's field errors, or the created client. */
  datatype ClientActionState =
    | ClientFailed(error: string)
    | ClientRejected(fieldErrors: map<string, seq<string>>)
    | ClientCreated(client: Client)

  const ClientNotLoggedIn: string := "You must be logged in to create a client"
  const ClientCreateFailed: string := "Failed to create client. Please try again."

  /** The object the schema checks: every field as text, an absent one as "". */
  function RawClient(f: ClientForm): ClientInput {
    ClientInput(OrEmpty(f.name), Some(OrEmpty(f.email)), Some(OrEmpty(f.phone)),
                Some(OrEmpty(f.company)), Some(OrEmpty(f.address)))
  }

  /** What reaches `createClient`: `value || undefined` for each contact field. */
  function ClientDataOf(input: ClientInput): ClientData {
    ClientData(input.name, NullIfEmpty(input.email), NullIfEmpty(input.phone),
               NullIfEmpty(input.company), NullIfEmpty(input.address))
  }

  /** The answer of the action and the tables after it. */
  function CreateClientOutcome(s: Tables, user: Option<nat>, form: ClientForm, now: int)
    : (r: (ClientActionState, Tables))
    ensures !r.0.ClientCreated? ==> r.1 == s
  {
    match user
    case None => (ClientFailed(ClientNotLoggedIn), s)
    case Some(userId) =>
      var input := RawClient(form);
      var issues := ClientIssues(input);
      if issues != [] then (ClientRejected(FieldErrors(issues)), s)
      else
        var data := ClientDataOf(input);
        match InsertClient(s, userId, data, now)
        case Raised(_) => (ClientFailed(ClientCreateFailed), s)
        case Ok(next) => (ClientCreated(Summary(NewClient(s.nextId, userId, data, now))), next)
  }

  /** The checks run in order and the first that fails decides the answer: nobody signed
      in, then the schema, whose field errors name exactly the fields that failed. */
  lemma ClientGuardOrder(s: Tables, user: Option<nat>, form: ClientForm, now: int)
    ensures user.None? ==> CreateClientOutcome(s, user, form, now).0 == ClientFailed(ClientNotLoggedIn)
    ensures user.Some? ==>
      (CreateClientOutcome(s, user, form, now).0.ClientRejected? <==> !ClientValid(RawClient(form)))
    ensures user.Some? && !ClientValid(RawClient(form)) ==>
      var errors := CreateClientOutcome(s, user, form, now).0.fieldErrors;
      ("name" in errors <==> OrEmpty(form.name) == "")
      && ("email" in errors <==> !(OrEmpty(form.email) == "" || IsEmail(OrEmpty(form.email))))
  {
    var input := RawClient(form);
    ClientIssuesIffInvalid(input);
    ClientErrorKeys(input);
    assert input.name == OrEmpty(form.name) && input.email == Some(OrEmpty(form.email));
  }

  /** A valid form of a user with a profile always creates the client: no quota is
      consulted, so a user whose tier's client gate refuses still gets one more. */
  lemma CreatesBeyondClientQuota(s: Tables, userId: nat, form: ClientForm, now: int, activeClients: nat)
    requires userId in ProfileIds(s.profiles) && ClientValid(RawClient(form))
    requires !CanCreateClient(GetSubscriptionByUserId(s.subscriptions, userId), activeClients).allowed
    ensures CreateClientOutcome(s, Some(userId), form, now).0.ClientCreated?
    ensures |GetClients(CreateClientOutcome(s, Some(userId), form, now).1, userId)|
      == |GetClients(s, userId)| + 1
  {
    ClientIssuesIffInvalid(RawClient(form));
    CreatedClientIsListed(s, userId, ClientDataOf(RawClient(form)), now);
  }

  /** A created client has the form's name and holds each contact field only when the
      form sent it non-empty, and then as sent. */
  lemma CreatedClientFields(s: Tables, user: Option<nat>, form: ClientForm, now: int)
    requires CreateClientOutcome(s, user, form, now).0.ClientCreated?
    ensures var c := CreateClientOutcome(s, user, form, now).0.client;
      c.name == OrEmpty(form.name) && c.name != ""
      && (c.email.None? <==> OrEmpty(form.email) == "") && (c.email.Some? ==> c.email.value == form.email.value)
      && (c.phone.None? <==> OrEmpty(form.phone) == "") && (c.phone.Some? ==> c.phone.value == form.phone.value)
      && (c.company.None? <==> OrEmpty(form.company) == "") && (c.company.Some? ==> c.company.value == form.company.value)
      && (c.address.None? <==> OrEmpty(form.address) == "") && (c.address.Some? ==> c.address.value == form.address.value)
  {
    ClientIssuesIffInvalid(RawClient(form));
  }

  /** `createClientAction`. */
  method CreateClientAction(db: Database, user: Option<nat>, form: ClientForm, now: int)
    returns (r: ClientActionState)
    requires db.Valid()
    modifies db
    ensures db.Valid()
    ensures (r, db.State()) == CreateClientOutcome(old(db.State()), user, form, now)
  {
    if user.None? {
      return ClientFailed(ClientNotLoggedIn);
    }
    var input := RawClient(form);
    var issues := ClientIssues(input);
    if issues != [] {
      return ClientRejected(FieldErrors(issues));
    }
    var created := CreateClient(db, user.value, ClientDataOf(input), now);
    if created.Raised? {
      return ClientFailed(ClientCreateFailed);
    }
    r := ClientCreated(created.value);
  }
}
