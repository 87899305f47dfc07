# Leave-request workflow of the HR messaging backend, in Dafny

This project models the decision logic of the HR backend's messaging
controller and the record shapes it acts on:

- **Records** (`records.dfy`): the `messages`, `message_recipients` and
  `comments` rows of the ORM model. There is also an abstract store: users in
  table order (ids and emails are unique, so `.first()` never has to choose
  between rows), messages by id, join rows in insertion order with surrogate
  ids, and comments. A message's recipients and comments are derived from the
  join rows and comment rows, as the ORM relationships derive them.
- **Roles** (`roles.dfy`): the per-endpoint role gates. The source's
  hand-written literal comparisons are proved equal to one declarative
  role-to-endpoint table.
- **Leave** (`leave.dfy`): `respond_to_leave_request` (an admin recipient
  answers a pending request) and `share_leave_request_with_next_office` (a
  head of section appends recipients). Each is a pure function from store,
  resolved caller and request to the new store or an error.
- **Upload** (`upload.dfy`): `upload_document` builds the document message.
  The external file storage is a function parameter that returns the URL.
- **Session** (`session.dfy`): resolving the caller with `get_user`, both as
  written and as evidently intended (see Findings).
- **Workflow** (`workflow.dfy`): runs of many calls with commit-or-rollback.
  Over any run a leave request is answered at most once, recipients are
  never removed, and the store stays well-formed.

Every handler wraps its body in a broad exception handler that re-raises an
HTTP 400 carrying the inner error text (message/controller.py:57-58). That
includes the 401s raised inside. So the model has a single error shape,
`Err(msg)`. Every check of the two leave handlers comes before their
`db.commit()` (message/controller.py:124, 172), so a request a check rejects
leaves the store as it was: an `Err` carries no store.

A few facts about the code shape the model:
- Authorization failures surface as 400 (message/controller.py:57-58, 133-134).
- `message_recipients` has no uniqueness on (message, recipient), so a
  message's recipients form a list that may hold a user twice
  (message/model.py:23-28).
- Forwarding appends every resolved user to the `recipients` list with no
  membership check (message/controller.py:169-170), so the list grows by one
  entry per listed address. The model stores one join row per append. Which
  rows the ORM finally writes for a user who is already linked is library
  behaviour outside the repository (see "## Left out").
- Only the leave response checks the prior status (message/controller.py:116).

## Model

| member | source | states |
|---|---|---|
| Records.NewMessage | message/model.py:12-17 | a message row needs label and title, and fails without them; text, document and type are stored as given and may be absent; a status not given becomes `pending`, so status is never null |
| Records.FindFirst | user/utils.py:9 | `.first()`: None exactly when no row matches; otherwise a matching row with no matching row before it |
| Records.FindByEmail | user/utils.py:26-28 | `get_user_by_email` finds a stored user with that email, and None exactly when no user has it |
| Records.FindById | user/utils.py:7-9 | the id query finds a stored user with that id, and None exactly when no user has it |
| Records.RecipientsOf | message/model.py:20 | `message.recipients` as the join rows define it: no longer than the rows; its meaning is stated by `Records.RecipientsAreLinked` |
| Records.RecipientsAreLinked | message/model.py:20-28 | a user is among a message's recipients exactly when a `message_recipients` row links them, and is counted once per such row, as the rows and the handler's own list after appending hold them |
| Records.RecipientsOfAppend | message/model.py:20-28 | in join-row order, the recipients of rows added later come after the existing ones |
| Records.Inbox | message/controller.py:78 | a user's inbox holds only stored messages; which ones is stated by `Records.InboxIsLinked` |
| Records.InboxIsLinked | message/controller.py:78 | a message is in a user's inbox exactly when it is stored and a join row links it to the user |
| Records.Outbox | message/controller.py:66 | a user's outbox (`sent_messages`, the reverse of `Message.sender` at message/model.py:19) holds only stored messages |
| Records.CommentsOf | message/model.py:36-39 | `message.comments` holds exactly the comments whose `message_id` is the message's id |
| Records.CommentBelongsToOneMessage | message/model.py:36 | a comment references one message, so it is in at most one message's comments |
| Records.ValidLinkIdsDistinct | message/model.py:26 | join rows have their own surrogate primary key, so distinct rows have distinct ids even for the same (message, recipient) pair |
| Roles.RequireRole | message/controller.py:191-192 | a single-role gate passes exactly when the caller's role name equals the literal |
| Roles.Gate | message/controller.py:113-421 | each endpoint's hand-written role check admits exactly the roles the role-to-endpoint table lists for it |
| Roles.GateIsSingleRoleExceptListing | message/controller.py:209-210 | every endpoint accepts one role except evaluation listing, which accepts `hr` or `admin`; a user without a role is admitted nowhere |
| Roles.StaffOnlySubmits | message/controller.py:243-244 | a `staff` caller passes only the early-closure and study-leave submission gates |
| Roles.RunGated | message/controller.py:189-194 | a handler whose body is elsewhere runs that body only for an admitted caller, and fails with the gate's error otherwise |
| Leave.RespondToLeave | message/controller.py:105-134 | a leave response succeeds exactly when all of these hold: the caller is `admin`, the message exists and is `pending`, the caller is a recipient, and the answer is `approve`, `disapprove` or `approve-without-pay`; success changes only that message's status, to the answer; a non-admin gets the role error whatever the message |
| Leave.AnswerIsNeverPending | message/controller.py:122 | none of the three allowed answers is `pending` |
| Leave.AnsweredOnlyOnce | message/controller.py:116-123 | after a successful answer, any further answer to the same request fails, whoever sends it and whatever it says |
| Leave.RespondKeepsMailboxes | message/controller.py:122-125 | answering changes no inbox, outbox or comment list |
| Leave.ResolveAll | message/controller.py:169-170 | the listed addresses resolve, in order and one user each, exactly when every address has a user |
| Leave.ShareLeave | message/controller.py:154-179 | sharing succeeds exactly when the caller is `hos`, the message exists and every address has a user; success keeps users, messages and comments, keeps the old join rows as a prefix, adds exactly one row per address, and advances the row-id counter by the number of addresses |
| Leave.ResolvedIdsCount | message/controller.py:169-170 | once every address resolves, each user occurs among the resolved users once per listed address that names them |
| Leave.ShareAppendsRecipients | message/controller.py:169-172 | sharing appends the resolved users behind the existing recipients, in address order and without deduplication, so the list grows by the number of addresses; other messages' recipients are untouched |
| Leave.ShareAddsOnlyListed | message/controller.py:169-172 | every recipient a share adds has one of the listed addresses, and each user gains one entry per listed address that names them, whether or not they were a recipient already |
| Leave.ShareSingleAddress | message/controller.py:169-172 | sharing with one address that has a user succeeds for a `hos` caller and appends exactly that user to the recipients |
| Leave.ShareDuplicatesExistingRecipient | message/controller.py:169-170 | with no membership check before the append and no uniqueness on (message, recipient) (message/model.py:23-28), sharing with an existing recipient adds them a second time |
| Leave.ShareKeepsMailboxes | message/controller.py:61-83 | after sharing, every inbox still holds its earlier messages and every outbox is unchanged |
| Leave.ShareDeliversToListed | message/controller.py:73-83 | after sharing, the shared message is in the inbox of every listed user |
| Leave.RespondPreservesValid | message/controller.py:122-125 | answering keeps the store well-formed |
| Leave.SharePreservesValid | message/controller.py:169-172 | sharing keeps the store well-formed: new join rows get fresh, increasing ids |
| Upload.UploadDocument | message/controller.py:24-58 | an upload fails with no document or when storage fails; otherwise the message fields say: sender is the caller, type `document_upload`, status `doc_upload`, document is the stored URL, and title, label, text and recipients are the form's |
| Upload.UploadedDocumentRow | message/controller.py:43-52 | an upload's fields make a valid message row whose status is `doc_upload`, not `pending`, and whose sender is the caller |
| Upload.UploadedDocumentCannotBeAnswered | message/controller.py:116-117 | a stored document upload is never pending, so every leave response to it fails |
| Session.GetUserAsWritten | user/utils.py:7-12 | `get_user` as written returns the pair `(True, row-or-None)`, never a user row |
| Session.GetUser | user/utils.py:7-12 | the corrected lookup returns a user row exactly when a row has that id, and never a pair |
| Session.AsCaller | message/controller.py:110-113 | the handlers' attribute reads succeed on a user row and fail on None or a pair |
| Session.AsWrittenNoCallerResolves | user/utils.py:10 | as written, no caller is ever resolved to a user |
| Session.CorrectedResolvesStoredCaller | user/utils.py:9 | with the corrected lookup, a caller resolves exactly when a row has that id, and to a row with that id |
| Workflow.Handle | message/controller.py:109-113 | an unknown caller id fails; a known one runs the handler with that user |
| Workflow.HandleAsWritten | user/utils.py:10 | with `get_user` as written, every respond and share request fails, whatever the store |
| Workflow.AsWrittenEveryRequestFails | message/controller.py:110-113 | as written, every leave response and every share request fails, for every store and caller |
| Workflow.CorrectedAdminRecipientAnswers | message/controller.py:110-125 | with the corrected lookup, an admin recipient's `approve` of a pending request succeeds, which the as-written code refuses |
| Workflow.Commit | message/controller.py:124-134 | one call, committed or rolled back, keeps the users, the comments and the set of stored messages, and only appends join rows |
| Workflow.CommitStatusStep | message/controller.py:122-125 | a committed call never removes a message, and changes a status only from `pending` to an allowed answer |
| Workflow.CommitNeverReopens | message/controller.py:116-117 | a request that is not pending stays not pending and cannot be answered |
| Workflow.AnsweredAtMostOnce | message/controller.py:116-125 | over any sequence of calls, a leave request is answered successfully at most once, and never unless it was pending at the start |
| Workflow.CommitKeepsRecipients | message/controller.py:169-172 | one committed call removes no join row: every recipient entry of each message is kept, counted with multiplicity, and in join-row order the old entries are a prefix |
| Workflow.RunKeepsRecipients | message/controller.py:169-172 | over any sequence of calls, no join row is removed: each message's earlier recipient entries are all kept, counted with multiplicity, and in join-row order they stay a prefix |
| Workflow.RunPreservesValid | message/controller.py:169-172 | any sequence of calls keeps the store well-formed |

## Findings

| source | as written | input that shows it | evidently intended | confidence | as-written member | corrected member |
|---|---|---|---|---|---|---|
| user/utils.py:10 | `get_user` returns the pair `(True, user)`. Every handler then reads an attribute of the user from it: `.role`, `.id` or `.email` (message/controller.py:40, 96, 110-113), `.sent_messages` (line 66) or `.received_messages` (line 78). A tuple has no such attribute, so every handler raises and answers 400. | any request, e.g. an `admin` recipient approving a `pending` leave request | return the user row itself | high (not executed) | `Session.GetUserAsWritten`, exhibited by `Workflow.AsWrittenEveryRequestFails` | `Session.GetUser`, with `Workflow.CorrectedAdminRecipientAnswers`; `Workflow.Handle` and everything after it use the corrected lookup |

## Left out

- Database plumbing: the session dependency (message/controller.py:17-22), `commit`/`refresh`, the engine setup and app wiring. The store is an immutable value. The rollback of a failed request is modelled by keeping the old store.
- Workflow.Commit: an exception raised after `db.commit()` is modelled as success. Examples are a failing `db.refresh`, response serialisation or `json.dumps` (message/controller.py:124-129, 172-173). The caller then gets a 400, but the change is already stored. `Workflow.Answers` counts such a call as a successful answer, which is the count `Workflow.AnsweredAtMostOnce` bounds.
- Recipient order: `recipients` declares no `order_by` (message/model.py:20), so the database may return the list in any order. The model lists recipients in join-row insertion order. Statements about that order hold of the join rows, not of the list a later request loads; membership holds of both.
- Records.RecipientsOfAppend: the order it states is join-row order; see "Recipient order".
- Leave.ShareAppendsRecipients: the order of the added entries is join-row order. Their membership and multiplicity are those of the handler's list after appending.
- Records.RecipientsAreLinked: the count is of `message_recipients` rows, and of the handler's own list after it appends. Whether a later load of `message.recipients` lists a user once per row or once in all is SQLAlchemy's loading behaviour, which is not part of this model. Only membership is claimed for a later load.
- Workflow.CommitKeepsRecipients: the prefix clause is about join-row order; the multiset inclusion is what the loaded list keeps.
- Workflow.RunKeepsRecipients: the prefix clause is about join-row order; the multiset inclusion is what the loaded list keeps.
- Leave.ShareLeave: one join row is stored per append, mirroring the list the handler builds (message/controller.py:169-170). The rows the ORM finally writes are decided by SQLAlchemy and by the reverse `User.messages` relationship in user/model.py. Neither is part of this model. Under one reading, the forward side skips a user already in the loaded list; under another, the reverse side writes that row anyway. The model does not choose between them, and no member promises that a repeated user gets fewer rows.
- Leave.ShareAddsOnlyListed: its count clause is about the stored join rows as modelled (one per append). See the `Leave.ShareLeave` line for what the ORM might write instead.
- Leave.ShareDuplicatesExistingRecipient: the second entry is the one the handler's list gains. Whether the ORM persists it as a second row is the open question on the `Leave.ShareLeave` line.
- Concurrency: handlers are async, and concurrent writes to `status` race with the last write winning. The model runs calls one after another.
- Tokens and hashing (config/security.py): the caller arrives as a user id already taken from a verified token.
- message/utils.py is not part of this model. That covers `create_message`, `create_comment`, `get_message`'s query, `get_leave_requests`, `get_all_evaluations`, `create_evaluation_with_grade`, `create_early_closure`, `create_study_leave` and every `update_*`. For those handlers only the role gate is modelled (`Roles.RunGated`, with the body as a parameter).
- The comment handler (message/controller.py:86-101): its only logic is in `create_comment`. The handler looks the message up but never uses it.
- Upload storage and insertion: `do_upload` lives in a helper module that is not part of this model. It becomes a parameter that returns the URL, or None to mean it raised. The upload result is the field set and recipient list handed to `create_message`; inserting the row and resolving recipients are not modelled.
- Response serialisation: `ReturnMessage.to_dict`, the JSON bodies and the `__dict__` rewriting of evaluations.
- HTTP status codes: every failure is the same 400. The model keeps only the error text. Python runtime errors (attribute access on None, flushing a None recipient) have paraphrased texts; for an explicit `HTTPException` the model keeps the inner message literal. Every such detail except message/controller.py:165 wraps that literal in `json.dumps({'message': ...})`.
- user/model.py is not part of this model. A user is modelled as id, email and an optional role. The email is taken to be non-null, although the users table allows null. Names, phone, password hash and timestamps are left out.
- Roles.RequireRole: every gate reads `user.role.name` (message/controller.py:113, 142, 164, …). The model takes `role` to be an object, or None, whose `.name` is the role string. The only users schema in the repository makes `role` a nullable string column (migrations/versions/cc1f3d535c48_third_migration.py:32), and there is no roles table. If `role` is mapped as that string, every gate raises on `.name`, and `Workflow.CorrectedAdminRecipientAnswers` does not describe the program.
- Workflow.CorrectedAdminRecipientAnswers: it rests on the role assumption on the `Roles.RequireRole` line.
- Timestamps (`created_at`, `updated_at`) on every table.
- Integer widths: ids are unbounded integers, so 32-bit overflow of the join-row id sequence is not modelled.
- Sharing with an address that has no user: the handler appends None to the recipient list. The model takes that to fail when the session flushes, so nothing is committed.
- Leave.ShareKeepsMailboxes: inboxes and outboxes are compared as sets of message ids. The order and multiplicity of the loaded lists are not modelled. The inbox is taken to be the reverse of `Message.recipients`. The inbox handler reads `user.received_messages` (message/controller.py:78), but the reverse named at message/model.py:20 is `User.messages`. Both are defined in user/model.py, which is not part of this model.
- Leave.ShareDeliversToListed: "inbox" means the messages linked to the user by `message_recipients` rows, under the same assumption about `received_messages` as the `Leave.ShareKeepsMailboxes` line.
