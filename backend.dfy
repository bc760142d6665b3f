/** The deployment's database as a mutable object, and the two ticket routes
    as methods that read and write it in place. Each route method is proved
    to do exactly what the pure step of module Tickets describes, so what
    module Tickets proves about one step holds of each call on the store. */
module Backend {
  import opened Http
  import opened Auth
  import opened Tickets

  /** The users and tickets collections, shared by every request. The users
      collection is only read here; users are created elsewhere. */
  class Store {
    var users: Users
    var tickets: TicketTable

    constructor (users: Users, tickets: TicketTable)
      ensures this.users == users && this.tickets == tickets
    {
      this.users := users;
      this.tickets := tickets;
    }

    /** add_code for an already authenticated user: 403 for any role but
        "validator" before the collection is looked at; a duplicate code is
        reported and left alone; a fresh code is inserted with the status the
        request carries. */
    method AddCode(currentUser: User, ticket: Ticket) returns (reply: Result<Message>)
      modifies this`tickets
      ensures Step(reply, tickets) == AddCodeStep(old(tickets), currentUser.role, ticket)
    {
      if currentUser.role != ValidatorRole {
        return Err(Forbidden);
      }
      if ticket.code in tickets {
        return Ok(DuplicateCode);
      }
      tickets := tickets[ticket.code := ticket.validatedStatus];
      return Ok(CodeAdded);
    }

    /** validate_code for an already authenticated user: 403 for any role but
        "authenticator"; an unknown code and an already validated one are
        reported and nothing is written; otherwise the one ticket is set to
        validated. */
    method ValidateCode(currentUser: User, code: string) returns (reply: Result<Message>)
      modifies this`tickets
      ensures Step(reply, tickets) == ValidateCodeStep(old(tickets), currentUser.role, code)
    {
      if currentUser.role != AuthenticatorRole {
        return Err(Forbidden);
      }
      if code !in tickets {
        return Ok(InvalidCode);
      }
      if tickets[code] {
        return Ok(AlreadyValidated);
      }
      tickets := tickets[code := true];
      return Ok(CodeValidated);
    }

    /** The add_code route with its dependency: the bearer token is resolved
        to a user first, and a 401 there leaves the tickets untouched. */
    method PostAddCode(token: string, ticket: Ticket, decode: string -> Option<Claims>)
      returns (reply: Result<Message>)
      modifies this`tickets
      ensures GetCurrentUser(users, token, decode).Err? ==>
                reply == Err(GetCurrentUser(users, token, decode).error) && tickets == old(tickets)
      ensures GetCurrentUser(users, token, decode).Ok? ==>
                Step(reply, tickets) == AddCodeStep(old(tickets), GetCurrentUser(users, token, decode).value.role, ticket)
    {
      var current := GetCurrentUser(users, token, decode);
      if current.Err? {
        return Err(current.error);
      }
      reply := AddCode(current.value, ticket);
    }

    /** The validate_code route with its dependency, as for PostAddCode. */
    method PostValidateCode(token: string, code: string, decode: string -> Option<Claims>)
      returns (reply: Result<Message>)
      modifies this`tickets
      ensures GetCurrentUser(users, token, decode).Err? ==>
                reply == Err(GetCurrentUser(users, token, decode).error) && tickets == old(tickets)
      ensures GetCurrentUser(users, token, decode).Ok? ==>
                Step(reply, tickets) == ValidateCodeStep(old(tickets), GetCurrentUser(users, token, decode).value.role, code)
    {
      var current := GetCurrentUser(users, token, decode);
      if current.Err? {
        return Err(current.error);
      }
      reply := ValidateCode(current.value, code);
    }
  }

  /** A caller's view of the register-then-validate-twice walk-through on a
      live store, proved from the route methods' contracts alone. */
  method RegisterThenValidateTwice(store: Store, validator: User, authenticator: User, code: string)
    returns (added: Result<Message>, first: Result<Message>, second: Result<Message>)
    requires validator.role == ValidatorRole && authenticator.role == AuthenticatorRole
    requires code !in store.tickets
    modifies store`tickets
    ensures added == Ok(CodeAdded) && first == Ok(CodeValidated) && second == Ok(AlreadyValidated)
    ensures store.tickets == old(store.tickets)[code := true]
  {
    added := store.AddCode(validator, Ticket(code, false));
    first := store.ValidateCode(authenticator, code);
    second := store.ValidateCode(authenticator, code);
  }
}
