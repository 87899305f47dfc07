/** The records of message/model.py and the abstract store the handlers act on.

    The relational tables become immutable values: users are kept in table
    order (queries end in `.first()`), messages are keyed by their primary
    key, and the `message_recipients` association rows are kept in insertion
    order, each with its own surrogate id drawn from a counter. A message's
    recipients and comments are not stored in the message: they are derived
    from the link rows and the comment rows, as the ORM relationships are. */
module Records {
  import opened Wrappers

  type Id = int

  /** A user row as the handlers see it: `role` is nullable, and every role
      gate reads its name. The role is taken to be an object whose `.name`
      is the string held here. */
  datatype User = User(id: Id, email: string, role: Option<string>)

  /** A row of `messages`: label, title and status are NOT NULL; text,
      document, type and sender_id are nullable. */
  datatype Message = Message(
    id: Id,
    senderId: Option<Id>,
    labelText: string,
    title: string,
    text: Option<string>,
    document: Option<string>,
    kind: Option<string>,
    status: string)

  /** A row of `message_recipients`: a surrogate id and the two foreign keys,
      with no uniqueness constraint on the pair. */
  datatype RecipientLink = RecipientLink(id: Id, messageId: Id, recipientId: Id)

  /** A row of `comments`: text is NOT NULL, both foreign keys are nullable. */
  datatype Comment = Comment(id: Id, text: string, messageId: Option<Id>, senderId: Option<Id>)

  /** The column values handed to the `Message` constructor; `None` means the
      value was not given (or was given as null). */
  datatype MessageFields = MessageFields(
    senderId: Option<Id>,
    labelText: Option<string>,
    title: Option<string>,
    text: Option<string>,
    document: Option<string>,
    kind: Option<string>,
    status: Option<string>)

  datatype Store = Store(
    users: seq<User>,
    messages: map<Id, Message>,
    links: seq<RecipientLink>,
    comments: seq<Comment>,
    nextLinkId: Id)

  const Pending: string := "pending"

  /** Builds the row the ORM inserts: the NOT NULL columns must be present,
      and a missing status takes the column default `pending`. */
  function NewMessage(id: Id, f: MessageFields): (r: Result<Message>)
    ensures r.Ok? <==> f.labelText.Some? && f.title.Some?
    ensures r.Ok? ==> r.value.id == id && r.value.senderId == f.senderId
    ensures r.Ok? ==> Some(r.value.labelText) == f.labelText && Some(r.value.title) == f.title
    ensures r.Ok? ==> r.value.text == f.text && r.value.document == f.document && r.value.kind == f.kind
    ensures r.Ok? ==> (f.status.None? ==> r.value.status == Pending)
    ensures r.Ok? ==> (f.status.Some? ==> r.value.status == f.status.value)
  {
    if f.labelText.None? then Err("NOT NULL constraint failed: messages.label")
    else if f.title.None? then Err("NOT NULL constraint failed: messages.title")
    else
      Ok(Message(id, f.senderId, f.labelText.value, f.title.value, f.text, f.document, f.kind,
                 match f.status case Some(st) => st case None => Pending))
  }

  /** `query(User).filter(...).first()`: a matching row, or None. The query
      has no ORDER BY, so SQL names no first row; the model takes table order.
      The choice never shows for the two queries here, because `users.id` is
      the primary key and `users.email` has a unique index, so at most one
      row matches. */
  function FindFirst(users: seq<User>, matches: User -> bool): (r: Option<User>)
    ensures r.None? <==> forall i :: 0 <= i < |users| ==> !matches(users[i])
    ensures r.Some? ==> exists i :: 0 <= i < |users| && users[i] == r.value && matches(users[i])
                                    && forall j :: 0 <= j < i ==> !matches(users[j])
  {
    if |users| == 0 then None
    else if matches(users[0]) then Some(users[0])
    else
      var rest := FindFirst(users[1..], matches);
      assert rest.Some? ==> exists i :: 1 <= i < |users| && users[i] == rest.value && matches(users[i])
                                        && forall j :: 0 <= j < i ==> !matches(users[j]) by {
        if rest.Some? {
          var k :| 0 <= k < |users[1..]| && users[1..][k] == rest.value && matches(users[1..][k])
                   && forall j :: 0 <= j < k ==> !matches(users[1..][j]);
          assert users[k + 1] == rest.value;
          forall j | 0 <= j < k + 1 ensures !matches(users[j]) {
            if j > 0 { assert users[j] == users[1..][j - 1]; }
          }
        }
      }
      rest
  }

  /** `get_user_by_email`. */
  function FindByEmail(users: seq<User>, email: string): (r: Option<User>)
    ensures r.Some? ==> r.value in users && r.value.email == email
    ensures r.None? <==> forall u :: u in users ==> u.email != email
  {
    FindFirst(users, (u: User) => u.email == email)
  }

  /** The user-by-id query behind `get_user`. */
  function FindById(users: seq<User>, id: Id): (r: Option<User>)
    ensures r.Some? ==> r.value in users && r.value.id == id
    ensures r.None? <==> forall u :: u in users ==> u.id != id
  {
    FindFirst(users, (u: User) => u.id == id)
  }

  /** `message.recipients`: the recipient ids of the link rows of one
      message, one entry per link row, in the order of the join rows. This is
      the handler's own list after it appends, and the rows of
      `message_recipients`. The relationship declares no `order_by` and the
      ORM may merge repeated rows when it loads, so a later load is known to
      agree on membership only. */
  function RecipientsOf(links: seq<RecipientLink>, messageId: Id): (r: seq<Id>)
    ensures |r| <= |links|
  {
    if |links| == 0 then []
    else
      (if links[0].messageId == messageId then [links[0].recipientId] else [])
      + RecipientsOf(links[1..], messageId)
  }

  /** The number of join rows that link `uid` to the message. */
  function LinkCount(links: seq<RecipientLink>, messageId: Id, uid: Id): nat
  {
    if |links| == 0 then 0
    else
      (if links[0].messageId == messageId && links[0].recipientId == uid then 1 else 0)
      + LinkCount(links[1..], messageId, uid)
  }

  /** A user is among a message's recipients exactly when some join row
      links the two, and is listed once for every such row. */
  lemma {:induction false} RecipientsAreLinked(links: seq<RecipientLink>, messageId: Id, uid: Id)
    ensures uid in RecipientsOf(links, messageId) <==>
              exists l :: l in links && l.messageId == messageId && l.recipientId == uid
    ensures multiset(RecipientsOf(links, messageId))[uid] == LinkCount(links, messageId, uid)
  {
    if |links| > 0 {
      RecipientsAreLinked(links[1..], messageId, uid);
      assert forall l :: l in links <==> l == links[0] || l in links[1..];
      var head := if links[0].messageId == messageId then [links[0].recipientId] else [];
      assert RecipientsOf(links, messageId) == head + RecipientsOf(links[1..], messageId);
      assert multiset(head + RecipientsOf(links[1..], messageId))
             == multiset(head) + multiset(RecipientsOf(links[1..], messageId));
    }
  }

  /** Link rows appended after existing ones keep the existing recipients in
      front and add theirs behind them. */
  lemma {:induction false} RecipientsOfAppend(a: seq<RecipientLink>, b: seq<RecipientLink>, messageId: Id)
    ensures RecipientsOf(a + b, messageId) == RecipientsOf(a, messageId) + RecipientsOf(b, messageId)
  {
    if |a| == 0 {
      assert a + b == b;
    } else {
      var head := if a[0].messageId == messageId then [a[0].recipientId] else [];
      assert (a + b)[0] == a[0];
      assert (a + b)[1..] == a[1..] + b;
      RecipientsOfAppend(a[1..], b, messageId);
      assert RecipientsOf(a + b, messageId) == head + RecipientsOf(a[1..] + b, messageId);
      assert RecipientsOf(a, messageId) == head + RecipientsOf(a[1..], messageId);
    }
  }

  /** `message.comments`: the comment rows whose message_id is the message's id. */
  function CommentsOf(comments: seq<Comment>, messageId: Id): (r: seq<Comment>)
    ensures |r| <= |comments|
    ensures forall c :: c in r <==> c in comments && c.messageId == Some(messageId)
  {
    if |comments| == 0 then []
    else
      var head := if comments[0].messageId == Some(messageId) then [comments[0]] else [];
      assert forall c :: c in comments <==> c == comments[0] || c in comments[1..];
      head + CommentsOf(comments[1..], messageId)
  }

  /** A comment belongs to at most one message's comment list. */
  lemma CommentBelongsToOneMessage(comments: seq<Comment>, c: Comment, m1: Id, m2: Id)
    requires c in CommentsOf(comments, m1) && c in CommentsOf(comments, m2)
    ensures m1 == m2
  {
  }

  /** A user's inbox: the stored messages a `message_recipients` row links
      the user to. This takes the `received_messages` the inbox handler reads
      to be the reverse of `Message.recipients`. */
  function Inbox(s: Store, uid: Id): (r: set<Id>)
    ensures r <= s.messages.Keys
  {
    set mid | mid in s.messages && uid in RecipientsOf(s.links, mid)
  }

  /** `user.sent_messages`: the stored messages whose sender is the user. */
  function Outbox(s: Store, uid: Id): (r: set<Id>)
    ensures r <= s.messages.Keys
  {
    set mid | mid in s.messages && s.messages[mid].senderId == Some(uid)
  }

  /** A message is in a user's inbox exactly when it is stored and some
      join row links it to the user. */
  lemma InboxIsLinked(s: Store, uid: Id, mid: Id)
    ensures mid in Inbox(s, uid) <==>
              mid in s.messages && exists l :: l in s.links && l.messageId == mid && l.recipientId == uid
  {
    RecipientsAreLinked(s.links, mid, uid);
  }

  /** The store's well-formedness: messages sit under their own id, and link
      ids are strictly increasing and below the id counter, hence distinct. */
  predicate Valid(s: Store)
  {
    && (forall mid :: mid in s.messages ==> s.messages[mid].id == mid)
    && (forall i :: 0 <= i < |s.links| ==> s.links[i].id < s.nextLinkId)
    && (forall i, j :: 0 <= i < j < |s.links| ==> s.links[i].id < s.links[j].id)
  }

  /** Join rows are distinguished by their surrogate id alone. */
  lemma ValidLinkIdsDistinct(s: Store, i: int, j: int)
    requires Valid(s)
    requires 0 <= i < |s.links| && 0 <= j < |s.links| && i != j
    ensures s.links[i].id != s.links[j].id
  {
    if i > j {
      assert s.links[j].id < s.links[i].id;
    }
  }

  /** Two stores differ at most in the status of one message. */
  predicate OnlyStatusChanged(s: Store, s': Store, messageId: Id, status: string)
    requires messageId in s.messages
  {
    && s'.users == s.users
    && s'.links == s.links
    && s'.comments == s.comments
    && s'.nextLinkId == s.nextLinkId
    && s'.messages.Keys == s.messages.Keys
    && s'.messages[messageId] == s.messages[messageId].(status := status)
    && forall mid :: mid in s.messages && mid != messageId ==> s'.messages[mid] == s.messages[mid]
  }
}
