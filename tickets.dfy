/** The ticket state machine, as pure functions over a snapshot of the
    tickets collection: each code is Unregistered, Registered(false) or
    Registered(true), and nothing leaves Registered(true). */
module Tickets {
  import opened Http

  /** The request body of add_code: a code and its validated status. */
  datatype Ticket = Ticket(code: string, validatedStatus: bool)

  /** The tickets collection: each stored code and its validated status. */
  type TicketTable = map<string, bool>

  /** The role add_code requires. */
  const ValidatorRole := "validator"

  /** The role validate_code requires. */
  const AuthenticatorRole := "authenticator"

  /** The `message` the two routes answer with on a 200 response. */
  datatype Message = DuplicateCode | CodeAdded | InvalidCode | AlreadyValidated | CodeValidated
  {
    function Text(): string
    {
      match this
      case DuplicateCode => "Duplicate code"
      case CodeAdded => "Code added successfully"
      case InvalidCode => "Invalid code"
      case AlreadyValidated => "Code already validated before"
      case CodeValidated => "Code validated successfully"
    }
  }

  /** What one call answers and the table it leaves behind. */
  datatype Step = Step(reply: Result<Message>, tickets: TicketTable)

  /** add_code by a requester with role `role`. */
  function AddCodeStep(tickets: TicketTable, role: string, ticket: Ticket): (s: Step)
    ensures role != ValidatorRole ==> s == Step(Err(Forbidden), tickets)
    ensures role == ValidatorRole && ticket.code in tickets ==> s == Step(Ok(DuplicateCode), tickets)
    ensures s.reply == Ok(CodeAdded) <==> role == ValidatorRole && ticket.code !in tickets
    ensures s.reply != Ok(CodeAdded) ==> s.tickets == tickets
    ensures s.reply == Ok(CodeAdded) ==> s.tickets.Keys == tickets.Keys + {ticket.code}
    ensures s.reply == Ok(CodeAdded) ==> s.tickets[ticket.code] == ticket.validatedStatus
    ensures s.reply == Ok(CodeAdded) ==> |s.tickets| == |tickets| + 1
    ensures forall c :: c in tickets ==> s.tickets[c] == tickets[c]
  {
    if role != ValidatorRole then Step(Err(Forbidden), tickets)
    else if ticket.code in tickets then Step(Ok(DuplicateCode), tickets)
    else Step(Ok(CodeAdded), tickets[ticket.code := ticket.validatedStatus])
  }

  /** validate_code by a requester with role `role`. */
  function ValidateCodeStep(tickets: TicketTable, role: string, code: string): (s: Step)
    ensures role != AuthenticatorRole ==> s == Step(Err(Forbidden), tickets)
    ensures s.reply == Ok(InvalidCode) <==> role == AuthenticatorRole && code !in tickets
    ensures s.reply == Ok(AlreadyValidated) <==> role == AuthenticatorRole && code in tickets && tickets[code]
    ensures s.reply == Ok(CodeValidated) <==> role == AuthenticatorRole && code in tickets && !tickets[code]
    ensures s.tickets.Keys == tickets.Keys
    ensures forall c :: c in tickets ==>
              s.tickets[c] == (tickets[c] || (c == code && s.reply == Ok(CodeValidated)))
  {
    if role != AuthenticatorRole then Step(Err(Forbidden), tickets)
    else if code !in tickets then Step(Ok(InvalidCode), tickets)
    else if tickets[code] then Step(Ok(AlreadyValidated), tickets)
    else Step(Ok(CodeValidated), tickets[code := true])
  }

  /** A request to either ticket route, with the requester's stored role. */
  datatype Call = AddCall(role: string, ticket: Ticket) | ValidateCall(role: string, code: string)

  function Apply(tickets: TicketTable, call: Call): Step
  {
    match call
    case AddCall(role, ticket) => AddCodeStep(tickets, role, ticket)
    case ValidateCall(role, code) => ValidateCodeStep(tickets, role, code)
  }

  /** The replies to a sequence of calls, one per call, and the final table. */
  datatype Trace = Trace(replies: seq<Result<Message>>, tickets: TicketTable)

  function Replay(tickets: TicketTable, calls: seq<Call>): (t: Trace)
    ensures |t.replies| == |calls|
    decreases |calls|
  {
    if calls == [] then Trace([], tickets)
    else
      var first := Apply(tickets, calls[0]);
      var rest := Replay(first.tickets, calls[1..]);
      Trace([first.reply] + rest.replies, rest.tickets)
  }

  /** How many of `replies` are the given message. */
  function CountReplies(replies: seq<Result<Message>>, message: Message): nat
  {
    if replies == [] then 0
    else (if replies[0] == Ok(message) then 1 else 0) + CountReplies(replies[1..], message)
  }

  /** Over any sequence of calls, every code stays stored and every
      validated code stays validated. */
  lemma {:induction false} ReplayNeverUnvalidates(tickets: TicketTable, calls: seq<Call>, code: string)
    requires code in tickets
    ensures code in Replay(tickets, calls).tickets
    ensures tickets[code] ==> Replay(tickets, calls).tickets[code]
    decreases |calls|
  {
    if calls != [] {
      ReplayNeverUnvalidates(Apply(tickets, calls[0]).tickets, calls[1..], code);
    }
  }

  /** Over any sequence of calls, the table holds one entry per successful
      add_code on top of what it started with: no code is ever stored twice. */
  lemma {:induction false} ReplayCountsAdds(tickets: TicketTable, calls: seq<Call>)
    ensures |Replay(tickets, calls).tickets| == |tickets| + CountReplies(Replay(tickets, calls).replies, CodeAdded)
    decreases |calls|
  {
    if calls != [] {
      var first := Apply(tickets, calls[0]);
      var rest := Replay(first.tickets, calls[1..]);
      ReplayCountsAdds(first.tickets, calls[1..]);
      assert ([first.reply] + rest.replies)[1..] == rest.replies;
      if first.reply == Ok(CodeAdded) {
        assert calls[0].AddCall?;
      } else {
        assert |first.tickets| == |tickets|;
      }
    }
  }

  /** Every code in the final table was stored at the start or added by a
      call that answered "Code added successfully". */
  lemma {:induction false} ReplayCodesComeFromAdds(tickets: TicketTable, calls: seq<Call>, code: string)
    requires code in Replay(tickets, calls).tickets
    ensures code in tickets
            || exists i :: 0 <= i < |calls| && calls[i].AddCall? && calls[i].role == ValidatorRole
                                            && calls[i].ticket.code == code
                                            && Replay(tickets, calls).replies[i] == Ok(CodeAdded)
    decreases |calls|
  {
    if calls != [] && code !in tickets {
      var first := Apply(tickets, calls[0]);
      var rest := Replay(first.tickets, calls[1..]);
      if code in first.tickets {
        assert calls[0].AddCall? && first.reply == Ok(CodeAdded);
      } else {
        ReplayCodesComeFromAdds(first.tickets, calls[1..], code);
        var i :| 0 <= i < |calls[1..]| && calls[1..][i].AddCall? && calls[1..][i].role == ValidatorRole
                 && calls[1..][i].ticket.code == code && rest.replies[i] == Ok(CodeAdded);
        assert calls[i + 1] == calls[1..][i];
        assert Replay(tickets, calls).replies[i + 1] == rest.replies[i];
      }
    }
  }

  /** The two-call idempotence of validate_code: on a stored, unvalidated
      code the first call validates it and the second reports it was. */
  lemma ValidateTwice(tickets: TicketTable, code: string)
    requires code in tickets && !tickets[code]
    ensures ValidateCodeStep(tickets, AuthenticatorRole, code).reply == Ok(CodeValidated)
    ensures var second := ValidateCodeStep(ValidateCodeStep(tickets, AuthenticatorRole, code).tickets, AuthenticatorRole, code);
            second.reply == Ok(AlreadyValidated) && second.tickets[code]
  {
  }

  /** The two-call idempotence of add_code: the same code added twice is
      stored once, the second call answering "Duplicate code". */
  lemma AddTwice(tickets: TicketTable, ticket: Ticket, again: Ticket)
    requires ticket.code !in tickets && again.code == ticket.code
    ensures AddCodeStep(tickets, ValidatorRole, ticket).reply == Ok(CodeAdded)
    ensures var second := AddCodeStep(AddCodeStep(tickets, ValidatorRole, ticket).tickets, ValidatorRole, again);
            second.reply == Ok(DuplicateCode) && |second.tickets| == |tickets| + 1
            && second.tickets[ticket.code] == ticket.validatedStatus
  {
  }

  /** A role that is neither of the two is refused by both routes. */
  lemma UnknownRoleDenied(tickets: TicketTable, role: string, ticket: Ticket, code: string)
    requires role != ValidatorRole && role != AuthenticatorRole
    ensures AddCodeStep(tickets, role, ticket) == Step(Err(Forbidden), tickets)
    ensures ValidateCodeStep(tickets, role, code) == Step(Err(Forbidden), tickets)
  {
  }

  /** The TICKET123 walk-through: added, validated, already validated, and an
      unknown code reported invalid. */
  lemma Ticket123Scenario()
    ensures var t0: TicketTable := map[];
            var s1 := AddCodeStep(t0, ValidatorRole, Ticket("TICKET123", false));
            var s2 := ValidateCodeStep(s1.tickets, AuthenticatorRole, "TICKET123");
            var s3 := ValidateCodeStep(s2.tickets, AuthenticatorRole, "TICKET123");
            var s4 := ValidateCodeStep(s3.tickets, AuthenticatorRole, "NOPE");
            && s1.reply == Ok(CodeAdded)
            && s2.reply == Ok(CodeValidated)
            && s3.reply == Ok(AlreadyValidated)
            && s4.reply == Ok(InvalidCode)
            && s4.tickets == map["TICKET123" := true]
  {
  }
}
