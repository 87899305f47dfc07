/** The leave-request workflow: an admin recipient answers a pending request
    once, and a head of section forwards a request to more recipients.

    Each handler is a pure function from the store, the resolved caller and
    the request to the committed store or the error. Every check comes before
    `db.commit()`, so a request a check rejects leaves the store as it was:
    the error carries no store. */
module Leave {
  import opened Wrappers
  import opened Records
  import opened Roles

  /** The answers an admin may give to a pending leave request. */
  const LeaveAnswers: set<string> := {"approve", "disapprove", "approve-without-pay"}

  predicate IsPending(s: Store, messageId: Id)
  {
    messageId in s.messages && s.messages[messageId].status == Pending
  }

  predicate IsRecipient(s: Store, messageId: Id, uid: Id)
  {
    uid in RecipientsOf(s.links, messageId)
  }

  /** `respond_to_leave_request`: the role gate, then the lookup, the status
      check, the recipient check and the answer check, in that order; only
      then is the status overwritten. */
  function RespondToLeave(s: Store, caller: User, messageId: Id, answer: string): (r: Result<Store>)
    ensures r.Ok? <==>
              && caller.role == Some(Admin)
              && IsPending(s, messageId)
              && IsRecipient(s, messageId, caller.id)
              && answer in LeaveAnswers
    ensures r.Ok? ==> OnlyStatusChanged(s, r.value, messageId, answer)
    ensures caller.role != Some(Admin) ==> r == Gate(Endpoint.RespondToLeave, caller).PropagateFailure()
  {
    var _ :- Gate(Endpoint.RespondToLeave, caller);
    if messageId !in s.messages then
      Err("'NoneType' object has no attribute 'status'")
    else
      var message := s.messages[messageId];
      if message.status != "pending" then
        Err("Leave request is not pending")
      else if caller.id !in RecipientsOf(s.links, messageId) then
        Err("Not the recipient of the request")
      else if answer == "approve" || answer == "disapprove" || answer == "approve-without-pay" then
        Ok(s.(messages := s.messages[messageId := message.(status := answer)]))
      else
        Err("Invalid status response")
  }

  /** No allowed answer is `pending`, so an answered request stays answered. */
  lemma AnswerIsNeverPending(answer: string)
    requires answer in LeaveAnswers
    ensures answer != Pending
  {
  }

  /** A request answered once cannot be answered again, by anyone, with
      anything. */
  lemma {:induction false} AnsweredOnlyOnce(s: Store, a: User, b: User, messageId: Id, first: string, second: string)
    requires RespondToLeave(s, a, messageId, first).Ok?
    ensures RespondToLeave(RespondToLeave(s, a, messageId, first).value, b, messageId, second).Err?
  {
    var s' := RespondToLeave(s, a, messageId, first).value;
    assert s'.messages[messageId].status == first;
    AnswerIsNeverPending(first);
  }

  /** Answering a request changes no one's inbox or outbox, nor any
      message's comments. */
  lemma RespondKeepsMailboxes(s: Store, caller: User, messageId: Id, answer: string, uid: Id, mid: Id)
    requires RespondToLeave(s, caller, messageId, answer).Ok?
    ensures Inbox(RespondToLeave(s, caller, messageId, answer).value, uid) == Inbox(s, uid)
    ensures Outbox(RespondToLeave(s, caller, messageId, answer).value, uid) == Outbox(s, uid)
    ensures CommentsOf(RespondToLeave(s, caller, messageId, answer).value.comments, mid) == CommentsOf(s.comments, mid)
  {
  }

  /** The new link rows for a forwarded request, numbered from `next` on. */
  function NewLinks(next: Id, messageId: Id, recipients: seq<User>): seq<RecipientLink>
  {
    seq(|recipients|, i requires 0 <= i < |recipients| => RecipientLink(next + i, messageId, recipients[i].id))
  }

  function Ids(users: seq<User>): seq<Id>
  {
    seq(|users|, i requires 0 <= i < |users| => users[i].id)
  }

  /** All new link rows belong to the one forwarded message. */
  lemma {:induction false} RecipientsOfNewLinks(next: Id, messageId: Id, recipients: seq<User>, other: Id)
    ensures RecipientsOf(NewLinks(next, messageId, recipients), messageId) == Ids(recipients)
    ensures other != messageId ==> RecipientsOf(NewLinks(next, messageId, recipients), other) == []
    decreases |recipients|
  {
    var links := NewLinks(next, messageId, recipients);
    if |recipients| > 0 {
      assert links[0] == RecipientLink(next, messageId, recipients[0].id);
      assert links[1..] == NewLinks(next + 1, messageId, recipients[1..]);
      RecipientsOfNewLinks(next + 1, messageId, recipients[1..], other);
      assert Ids(recipients) == [recipients[0].id] + Ids(recipients[1..]);
    }
  }

  /** `get_user_by_email` for every listed address, in order; `None` as soon
      as one address has no user. */
  function ResolveAll(users: seq<User>, emails: seq<string>): (r: Option<seq<User>>)
    ensures r.Some? <==> forall i :: 0 <= i < |emails| ==> FindByEmail(users, emails[i]).Some?
    ensures r.Some? ==> |r.value| == |emails|
    ensures r.Some? ==> forall i :: 0 <= i < |emails| ==> r.value[i] == FindByEmail(users, emails[i]).value
  {
    if |emails| == 0 then Some([])
    else
      match FindByEmail(users, emails[0])
      case None => None
      case Some(u) =>
        match ResolveAll(users, emails[1..])
        case None => None
        case Some(rest) =>
          assert forall i :: 1 <= i < |emails| ==> emails[i] == emails[1..][i - 1];
          Some([u] + rest)
  }

  /** The number of listed addresses whose user has the id `uid`. */
  function ListedCount(users: seq<User>, emails: seq<string>, uid: Id): nat
  {
    if |emails| == 0 then 0
    else
      (if FindByEmail(users, emails[0]).Some? && FindByEmail(users, emails[0]).value.id == uid then 1 else 0)
      + ListedCount(users, emails[1..], uid)
  }

  /** Each user occurs among the resolved ids once per address that names
      them. */
  lemma {:induction false} ResolvedIdsCount(users: seq<User>, emails: seq<string>, uid: Id)
    requires ResolveAll(users, emails).Some?
    ensures multiset(Ids(ResolveAll(users, emails).value))[uid] == ListedCount(users, emails, uid)
  {
    if |emails| > 0 {
      var u := FindByEmail(users, emails[0]).value;
      var rest := ResolveAll(users, emails[1..]).value;
      assert ResolveAll(users, emails).value == [u] + rest;
      ResolvedIdsCount(users, emails[1..], uid);
      IdsCons(u, rest);
      assert multiset([u.id] + Ids(rest)) == multiset([u.id]) + multiset(Ids(rest));
    }
  }

  lemma IdsCons(u: User, rest: seq<User>)
    ensures Ids([u] + rest) == [u.id] + Ids(rest)
  {
    assert forall i :: 0 < i <= |rest| ==> ([u] + rest)[i] == rest[i - 1];
  }

  /** The conditions under which a forward succeeds: the caller heads a
      section, the message exists, and every listed address has a user. */
  predicate CanShare(s: Store, caller: User, messageId: Id, emails: seq<string>)
  {
    && caller.role == Some(Hos)
    && messageId in s.messages
    && forall i :: 0 <= i < |emails| ==> FindByEmail(s.users, emails[i]).Some?
  }

  /** `share_leave_request_with_next_office`: the role gate, the lookup, then
      one append per listed address, committed together, with no check of
      who already receives the request. Each append becomes one join row. A
      missing message fails on attribute access (or, with no addresses, on
      refreshing None); an address with no user appends None, which fails at
      commit. */
  function ShareLeave(s: Store, caller: User, messageId: Id, emails: seq<string>): (r: Result<Store>)
    ensures r.Ok? <==> CanShare(s, caller, messageId, emails)
    ensures r.Ok? ==>
              && r.value.users == s.users
              && r.value.messages == s.messages
              && r.value.comments == s.comments
              && |r.value.links| == |s.links| + |emails|
              && r.value.links[..|s.links|] == s.links
              && r.value.nextLinkId == s.nextLinkId + |emails|
    ensures caller.role != Some(Hos) ==> r == Gate(ShareLeaveRequest, caller).PropagateFailure()
  {
    var _ :- Gate(ShareLeaveRequest, caller);
    if messageId !in s.messages then
      if |emails| == 0 then Err("Class 'builtins.NoneType' is not mapped")
      else Err("'NoneType' object has no attribute 'recipients'")
    else
      match ResolveAll(s.users, emails)
      case None => Err("a listed recipient has no user: None cannot be flushed in message recipients")
      case Some(resolved) =>
        Ok(s.(links := s.links + NewLinks(s.nextLinkId, messageId, resolved),
              nextLinkId := s.nextLinkId + |resolved|))
  }

  /** Forwarding appends, in address order and without deduplication, one
      recipient per listed address (the user `get_user_by_email` finds for
      it) after the existing ones, and leaves every other message's
      recipients as they were. */
  lemma ShareAppendsRecipients(s: Store, caller: User, messageId: Id, emails: seq<string>, other: Id)
    requires ShareLeave(s, caller, messageId, emails).Ok?
    ensures ResolveAll(s.users, emails).Some?
    ensures RecipientsOf(ShareLeave(s, caller, messageId, emails).value.links, messageId)
            == RecipientsOf(s.links, messageId) + Ids(ResolveAll(s.users, emails).value)
    ensures |RecipientsOf(ShareLeave(s, caller, messageId, emails).value.links, messageId)|
            == |RecipientsOf(s.links, messageId)| + |emails|
    ensures other != messageId ==>
              RecipientsOf(ShareLeave(s, caller, messageId, emails).value.links, other) == RecipientsOf(s.links, other)
  {
    var resolved := ResolveAll(s.users, emails).value;
    var added := NewLinks(s.nextLinkId, messageId, resolved);
    assert ShareLeave(s, caller, messageId, emails).value.links == s.links + added;
    RecipientsOfAppend(s.links, added, messageId);
    RecipientsOfAppend(s.links, added, other);
    RecipientsOfNewLinks(s.nextLinkId, messageId, resolved, other);
  }

  /** Every recipient a forward adds is a listed user, and each user gains
      one entry per address that names them, whether or not they already
      received the request. */
  lemma ShareAddsOnlyListed(s: Store, caller: User, messageId: Id, emails: seq<string>, uid: Id)
    requires ShareLeave(s, caller, messageId, emails).Ok?
    ensures uid in RecipientsOf(ShareLeave(s, caller, messageId, emails).value.links, messageId)
            && uid !in RecipientsOf(s.links, messageId) ==>
              exists i :: 0 <= i < |emails| && FindByEmail(s.users, emails[i]).Some?
                                            && FindByEmail(s.users, emails[i]).value.id == uid
    ensures multiset(RecipientsOf(ShareLeave(s, caller, messageId, emails).value.links, messageId))[uid]
            == multiset(RecipientsOf(s.links, messageId))[uid] + ListedCount(s.users, emails, uid)
  {
    var before := RecipientsOf(s.links, messageId);
    var resolved := ResolveAll(s.users, emails).value;
    var after := RecipientsOf(ShareLeave(s, caller, messageId, emails).value.links, messageId);
    ShareAppendsRecipients(s, caller, messageId, emails, messageId);
    assert after == before + Ids(resolved);
    if uid in Ids(resolved) {
      var i :| 0 <= i < |resolved| && Ids(resolved)[i] == uid;
      assert FindByEmail(s.users, emails[i]).value.id == uid;
    }
    ResolvedIdsCount(s.users, emails, uid);
    assert multiset(after) == multiset(before) + multiset(Ids(resolved));
  }

  /** Forwarding to one address that has a user appends exactly that user. */
  lemma ShareSingleAddress(s: Store, caller: User, messageId: Id, u: User)
    requires caller.role == Some(Hos)
    requires messageId in s.messages
    requires FindByEmail(s.users, u.email) == Some(u)
    ensures ShareLeave(s, caller, messageId, [u.email]).Ok?
    ensures RecipientsOf(ShareLeave(s, caller, messageId, [u.email]).value.links, messageId)
            == RecipientsOf(s.links, messageId) + [u.id]
  {
    assert CanShare(s, caller, messageId, [u.email]) by {
      assert [u.email][0] == u.email;
    }
    ShareAppendsRecipients(s, caller, messageId, [u.email], messageId);
    assert ResolveAll(s.users, [u.email]).value == [u];
    assert Ids([u]) == [u.id];
  }

  /** There is no uniqueness on (message, recipient) and no membership check
      before appending: forwarding to someone who already receives the
      request appends them a second time to the handler's list. */
  lemma ShareDuplicatesExistingRecipient(s: Store, caller: User, messageId: Id, u: User)
    requires caller.role == Some(Hos)
    requires messageId in s.messages
    requires IsRecipient(s, messageId, u.id)
    requires FindByEmail(s.users, u.email) == Some(u)
    ensures ShareLeave(s, caller, messageId, [u.email]).Ok?
    ensures multiset(RecipientsOf(ShareLeave(s, caller, messageId, [u.email]).value.links, messageId))[u.id] >= 2
  {
    ShareSingleAddress(s, caller, messageId, u);
    var before := RecipientsOf(s.links, messageId);
    assert multiset(before)[u.id] >= 1;
    assert multiset(before + [u.id]) == multiset(before) + multiset{u.id};
  }

  /** Forwarding keeps every inbox's earlier messages and changes no outbox. */
  lemma ShareKeepsMailboxes(s: Store, caller: User, messageId: Id, emails: seq<string>, uid: Id)
    requires ShareLeave(s, caller, messageId, emails).Ok?
    ensures Inbox(s, uid) <= Inbox(ShareLeave(s, caller, messageId, emails).value, uid)
    ensures Outbox(ShareLeave(s, caller, messageId, emails).value, uid) == Outbox(s, uid)
  {
    var s' := ShareLeave(s, caller, messageId, emails).value;
    assert s'.messages == s.messages;
    forall mid | mid in Inbox(s, uid) ensures mid in Inbox(s', uid) {
      ShareAppendsRecipients(s, caller, messageId, emails, mid);
      var before := RecipientsOf(s.links, mid);
      assert uid in before;
      if mid == messageId {
        var ids := Ids(ResolveAll(s.users, emails).value);
        assert RecipientsOf(s'.links, mid) == before + ids;
      }
      assert uid in RecipientsOf(s'.links, mid);
    }
  }

  /** Forwarding delivers the request to the inbox of every listed user. */
  lemma ShareDeliversToListed(s: Store, caller: User, messageId: Id, emails: seq<string>, i: int)
    requires ShareLeave(s, caller, messageId, emails).Ok?
    requires 0 <= i < |emails|
    ensures FindByEmail(s.users, emails[i]).Some?
    ensures messageId in Inbox(ShareLeave(s, caller, messageId, emails).value, FindByEmail(s.users, emails[i]).value.id)
  {
    var s' := ShareLeave(s, caller, messageId, emails).value;
    var uid := FindByEmail(s.users, emails[i]).value.id;
    ShareAppendsRecipients(s, caller, messageId, emails, messageId);
    var ids := Ids(ResolveAll(s.users, emails).value);
    assert ids[i] == uid;
    assert RecipientsOf(s'.links, messageId) == RecipientsOf(s.links, messageId) + ids;
    assert uid in RecipientsOf(s'.links, messageId);
    assert s'.messages == s.messages;
  }

  /** Answering keeps the store well-formed. */
  lemma RespondPreservesValid(s: Store, caller: User, messageId: Id, answer: string)
    requires Valid(s)
    requires RespondToLeave(s, caller, messageId, answer).Ok?
    ensures Valid(RespondToLeave(s, caller, messageId, answer).value)
  {
    var s' := RespondToLeave(s, caller, messageId, answer).value;
    assert OnlyStatusChanged(s, s', messageId, answer);
  }

  /** Forwarding keeps the store well-formed: the new link rows take fresh,
      increasing ids. */
  lemma SharePreservesValid(s: Store, caller: User, messageId: Id, emails: seq<string>)
    requires Valid(s)
    requires ShareLeave(s, caller, messageId, emails).Ok?
    ensures Valid(ShareLeave(s, caller, messageId, emails).value)
  {
    var s' := ShareLeave(s, caller, messageId, emails).value;
    var resolved := ResolveAll(s.users, emails).value;
    var added := NewLinks(s.nextLinkId, messageId, resolved);
    assert s'.links == s.links + added;
    assert s'.nextLinkId == s.nextLinkId + |added|;
    assert s'.messages == s.messages;
    forall i | 0 <= i < |s'.links| ensures s'.links[i].id < s'.nextLinkId {
      if i >= |s.links| { assert s'.links[i] == added[i - |s.links|]; }
    }
    forall i, j | 0 <= i < j < |s'.links| ensures s'.links[i].id < s'.links[j].id {
      if j >= |s.links| {
        assert s'.links[j] == added[j - |s.links|];
        if i >= |s.links| { assert s'.links[i] == added[i - |s.links|]; }
        else { assert s'.links[i] == s.links[i]; }
      } else {
        assert s'.links[i] == s.links[i] && s'.links[j] == s.links[j];
      }
    }
  }
}
