/** `upload_document`: a document message is built from the form fields and
    the URL the external storage returns.

    The storage service is a parameter: `store` maps the file and the
    uploader's email to the document URL, or to `None` when the upload
    fails. The insertion itself and the resolution of the recipient list
    happen in `create_message` (message/utils.py, not part of this model), so
    the handler's result is what it hands over: the column values and the
    recipient list. */
module Upload {
  import opened Wrappers
  import opened Records
  import opened Leave

  /** An uploaded file as the form delivers it. */
  datatype Document = Document(filename: string, content: seq<bv8>)

  /** What the handler passes to `create_message`. */
  datatype Creation = Creation(fields: MessageFields, recipients: seq<string>)

  const DocumentUploadType: string := "document_upload"
  const DocumentUploadStatus: string := "doc_upload"

  function UploadDocument(
    caller: User,
    document: Option<Document>,
    title: string,
    labelText: string,
    recipients: seq<string>,
    text: Option<string>,
    store: (Document, string) -> Option<string>): (r: Result<Creation>)
    ensures r.Ok? <==> document.Some? && store(document.value, caller.email).Some?
    ensures document.None? ==> r == Err("No document to upload")
    ensures r.Ok? ==>
              && r.value.fields.senderId == Some(caller.id)
              && r.value.fields.kind == Some(DocumentUploadType)
              && r.value.fields.status == Some(DocumentUploadStatus)
              && r.value.fields.document == store(document.value, caller.email)
              && r.value.fields.title == Some(title)
              && r.value.fields.labelText == Some(labelText)
              && r.value.fields.text == text
              && r.value.recipients == recipients
  {
    match document
    case None => Err("No document to upload")
    case Some(doc) =>
      match store(doc, caller.email)
      case None => Err("document upload failed")
      case Some(url) =>
        Ok(Creation(
          MessageFields(Some(caller.id), Some(labelText), Some(title), text, Some(url),
                        Some("document_upload"), Some("doc_upload")),
          recipients))
  }

  /** An uploaded document becomes a stored row (the required columns are
      present) whose status is `doc_upload`, not the `pending` default. */
  lemma UploadedDocumentRow(
    caller: User, document: Option<Document>, title: string, labelText: string,
    recipients: seq<string>, text: Option<string>, store: (Document, string) -> Option<string>, id: Id)
    requires UploadDocument(caller, document, title, labelText, recipients, text, store).Ok?
    ensures var fields := UploadDocument(caller, document, title, labelText, recipients, text, store).value.fields;
            && NewMessage(id, fields).Ok?
            && NewMessage(id, fields).value.status == DocumentUploadStatus
            && NewMessage(id, fields).value.status != Pending
            && NewMessage(id, fields).value.senderId == Some(caller.id)
  {
  }

  /** A stored document upload is never a pending leave request, so no one
      can answer it. */
  lemma UploadedDocumentCannotBeAnswered(
    s: Store, caller: User, document: Option<Document>, title: string, labelText: string,
    recipients: seq<string>, text: Option<string>, store: (Document, string) -> Option<string>,
    id: Id, admin: User, answer: string)
    requires UploadDocument(caller, document, title, labelText, recipients, text, store).Ok?
    requires NewMessage(id, UploadDocument(caller, document, title, labelText, recipients, text, store).value.fields).Ok?
    requires id in s.messages
    requires s.messages[id] == NewMessage(id, UploadDocument(caller, document, title, labelText, recipients, text, store).value.fields).value
    ensures RespondToLeave(s, admin, id, answer).Err?
  {
  }
}
