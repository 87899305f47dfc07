/** Sequences of leave-workflow requests against one store.

    A call names the caller's user id and the request. The caller is
    resolved from the store, the handler runs, and its result is committed;
    a handler that fails a check rolls back, so the store stays as it was. The lemmas
    here relate many calls: a leave request is answered at most once over any
    sequence of calls, forwarding only ever adds recipients, and the store
    stays well-formed. */
module Workflow {
  import opened Wrappers
  import opened Records
  import opened Session
  import opened Leave

  datatype Request =
    | Respond(messageId: Id, answer: string)
    | Share(messageId: Id, emails: seq<string>)

  datatype Call = Call(callerId: Id, request: Request)

  function Dispatch(s: Store, caller: User, request: Request): Result<Store>
  {
    match request
    case Respond(mid, answer) => RespondToLeave(s, caller, mid, answer)
    case Share(mid, emails) => ShareLeave(s, caller, mid, emails)
  }

  /** One request with the evidently intended caller lookup. */
  function Handle(s: Store, c: Call): (r: Result<Store>)
    ensures FindById(s.users, c.callerId).None? ==> r.Err?
    ensures FindById(s.users, c.callerId).Some? ==> r == Dispatch(s, FindById(s.users, c.callerId).value, c.request)
  {
    var caller :- AsCaller(GetUser(s.users, c.callerId));
    Dispatch(s, caller, c.request)
  }

  /** One request with `get_user` as written. */
  function HandleAsWritten(s: Store, c: Call): (r: Result<Store>)
    ensures r.Err?
  {
    match AsCaller(GetUserAsWritten(s.users, c.callerId))
    case Err(e) => Err(e)
    case Ok(caller) => Dispatch(s, caller, c.request)
  }

  /** As written, every leave-workflow request fails, for every store and
      caller, even an admin recipient answering a pending request. */
  lemma AsWrittenEveryRequestFails(s: Store, c: Call)
    ensures HandleAsWritten(s, c).Err?
  {
    AsWrittenNoCallerResolves(s.users, c.callerId);
  }

  /** With the corrected lookup, an admin recipient can answer a pending
      request, which the as-written handler refuses. */
  lemma CorrectedAdminRecipientAnswers(s: Store, c: Call, admin: User)
    requires FindById(s.users, c.callerId) == Some(admin)
    requires admin.role == Some("admin")
    requires c.request.Respond? && c.request.answer == "approve"
    requires IsPending(s, c.request.messageId) && IsRecipient(s, c.request.messageId, admin.id)
    ensures Handle(s, c).Ok?
    ensures HandleAsWritten(s, c).Err?
  {
    AsWrittenNoCallerResolves(s.users, c.callerId);
  }

  /** The committed store after one call: the handler's store, or the old
      one when the handler failed. Every modelled failure happens before
      `db.commit()`; errors raised after it are not modelled. */
  function Commit(s: Store, c: Call): (r: Store)
    ensures r.users == s.users && r.comments == s.comments
    ensures r.messages.Keys == s.messages.Keys
    ensures |s.links| <= |r.links| && r.links[..|s.links|] == s.links
  {
    match Handle(s, c)
    case Ok(s') => s'
    case Err(_) => s
  }

  function Run(s: Store, calls: seq<Call>): Store
    decreases |calls|
  {
    if |calls| == 0 then s else Run(Commit(s, calls[0]), calls[1..])
  }

  /** Whether a call successfully answers the leave request `messageId`. */
  predicate Answers(s: Store, c: Call, messageId: Id)
  {
    c.request.Respond? && c.request.messageId == messageId && Handle(s, c).Ok?
  }

  /** The number of calls of a run that successfully answer `messageId`. */
  function AnswerCount(s: Store, calls: seq<Call>, messageId: Id): nat
    decreases |calls|
  {
    if |calls| == 0 then 0
    else (if Answers(s, calls[0], messageId) then 1 else 0) + AnswerCount(Commit(s, calls[0]), calls[1..], messageId)
  }

  /** One call changes a message's status only from `pending` to one of the
      allowed answers, and never removes a message. */
  lemma CommitStatusStep(s: Store, c: Call, messageId: Id)
    requires messageId in s.messages
    ensures messageId in Commit(s, c).messages
    ensures Commit(s, c).messages[messageId].status != s.messages[messageId].status ==>
              s.messages[messageId].status == Pending && Commit(s, c).messages[messageId].status in LeaveAnswers
    ensures Answers(s, c, messageId) ==> Commit(s, c).messages[messageId].status in LeaveAnswers
  {
  }

  /** A request that is not pending never becomes pending again. */
  lemma CommitNeverReopens(s: Store, c: Call, messageId: Id)
    requires !IsPending(s, messageId)
    ensures !IsPending(Commit(s, c), messageId)
    ensures !Answers(s, c, messageId)
  {
    if messageId in s.messages {
      CommitStatusStep(s, c, messageId);
    } else {
      assert messageId !in Commit(s, c).messages;
    }
  }

  /** Over any sequence of calls, a leave request is answered successfully
      at most once, and not at all unless it was pending at the start. */
  lemma {:induction false} AnsweredAtMostOnce(s: Store, calls: seq<Call>, messageId: Id)
    ensures AnswerCount(s, calls, messageId) <= (if IsPending(s, messageId) then 1 else 0)
    decreases |calls|
  {
    if |calls| > 0 {
      var s' := Commit(s, calls[0]);
      AnsweredAtMostOnce(s', calls[1..], messageId);
      if IsPending(s, messageId) {
        if Answers(s, calls[0], messageId) {
          CommitStatusStep(s, calls[0], messageId);
          AnswerIsNeverPending(s'.messages[messageId].status);
        }
      } else {
        CommitNeverReopens(s, calls[0], messageId);
      }
    }
  }

  /** A prefix's elements, counted with multiplicity, are among the whole's. */
  lemma PrefixMultiset(a: seq<Id>, b: seq<Id>)
    requires |a| <= |b| && b[..|a|] == a
    ensures multiset(a) <= multiset(b)
  {
    assert b == a + b[|a|..];
  }

  /** One committed call removes no join row: each message's recipients keep
      every entry, and in join-row order the old ones are a prefix. */
  lemma CommitKeepsRecipients(s: Store, c: Call, messageId: Id)
    ensures |RecipientsOf(s.links, messageId)| <= |RecipientsOf(Commit(s, c).links, messageId)|
    ensures RecipientsOf(Commit(s, c).links, messageId)[..|RecipientsOf(s.links, messageId)|]
            == RecipientsOf(s.links, messageId)
    ensures multiset(RecipientsOf(s.links, messageId)) <= multiset(RecipientsOf(Commit(s, c).links, messageId))
  {
    if Handle(s, c).Ok? && c.request.Share? {
      var caller := FindById(s.users, c.callerId).value;
      ShareAppendsRecipients(s, caller, c.request.messageId, c.request.emails, messageId);
    }
    PrefixMultiset(RecipientsOf(s.links, messageId), RecipientsOf(Commit(s, c).links, messageId));
  }

  /** No run removes a join row: every recipient entry of a message before
      the run is still there after it, and in join-row order the old ones are
      a prefix. */
  lemma {:induction false} RunKeepsRecipients(s: Store, calls: seq<Call>, messageId: Id)
    ensures |RecipientsOf(s.links, messageId)| <= |RecipientsOf(Run(s, calls).links, messageId)|
    ensures RecipientsOf(Run(s, calls).links, messageId)[..|RecipientsOf(s.links, messageId)|]
            == RecipientsOf(s.links, messageId)
    ensures multiset(RecipientsOf(s.links, messageId)) <= multiset(RecipientsOf(Run(s, calls).links, messageId))
    decreases |calls|
  {
    if |calls| > 0 {
      var s' := Commit(s, calls[0]);
      CommitKeepsRecipients(s, calls[0], messageId);
      RunKeepsRecipients(s', calls[1..], messageId);
      var a := RecipientsOf(s.links, messageId);
      var b := RecipientsOf(s'.links, messageId);
      var d := RecipientsOf(Run(s', calls[1..]).links, messageId);
      assert Run(s, calls) == Run(s', calls[1..]);
      assert d[..|a|] == d[..|b|][..|a|];
    }
    PrefixMultiset(RecipientsOf(s.links, messageId), RecipientsOf(Run(s, calls).links, messageId));
  }

  /** A run keeps the store well-formed. */
  lemma {:induction false} RunPreservesValid(s: Store, calls: seq<Call>)
    requires Valid(s)
    ensures Valid(Run(s, calls))
    decreases |calls|
  {
    if |calls| > 0 {
      var c := calls[0];
      if Handle(s, c).Ok? {
        var caller := FindById(s.users, c.callerId).value;
        match c.request
        case Respond(mid, answer) => RespondPreservesValid(s, caller, mid, answer);
        case Share(mid, emails) => SharePreservesValid(s, caller, mid, emails);
      }
      RunPreservesValid(Commit(s, c), calls[1..]);
    }
  }
}
