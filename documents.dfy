/**
 * The documents section of the flood plan: uploaded documents with a title, a
 * description and a file, added through a form, edited inline (optionally
 * replacing the file) and deleted behind a confirmation dialog.
 */
module Documents {
  import opened Wrappers
  import opened Lists

  /** A browser file: its name and its size in bytes. */
  datatype File = File(name: string, size: nat)

  /** A stored document; `uploadedAt` is the clock reading when it was added. */
  datatype Document = Document(
    id: string, title: string, description: string, file: Option<File>,
    fileName: string, fileSize: nat, uploadedAt: int)

  datatype DocumentForm = DocumentForm(title: string, description: string, file: Option<File>)

  datatype DocumentEdit = DocumentEdit(title: string, description: string, file: Option<File>, fileName: string)

  const EmptyForm := DocumentForm("", "", None)
  const EmptyEdit := DocumentEdit("", "", None, "")

  /** A document's name and size are those of its file, whenever it has one. */
  predicate Consistent(d: Document) {
    d.file.Some? ==> d.fileName == d.file.value.name && d.fileSize == d.file.value.size
  }

  /** An edit's file name is that of its replacement file, whenever it has one. */
  predicate EditConsistent(e: DocumentEdit) {
    e.file.Some? ==> e.fileName == e.file.value.name
  }

  /** A JavaScript-truthy optional id: present and not the empty string. */
  predicate Truthy(id: Option<string>) {
    id.Some? && id.value != ""
  }

  /** The add form can be submitted: a title and a chosen file. */
  predicate FormComplete(f: DocumentForm) {
    f.title != "" && f.file.Some?
  }

  /** The document the add form creates, with the fresh id and the current time. */
  function NewDocument(f: DocumentForm, freshId: string, now: int): (d: Document)
    requires f.file.Some?
    ensures d.id == freshId && d.title == f.title && d.description == f.description && d.file == f.file
    ensures d.uploadedAt == now
    ensures Consistent(d)
  {
    Document(freshId, f.title, f.description, f.file, f.file.value.name, f.file.value.size, now)
  }

  /** `handleEditFileChange`: a chosen file replaces the edit's file and its name; no file changes nothing. */
  function EditWithFile(e: DocumentEdit, file: Option<File>): (r: DocumentEdit)
    ensures EditConsistent(e) ==> EditConsistent(r)
    ensures file.Some? ==> r.file == file && r.fileName == file.value.name && r.title == e.title && r.description == e.description
    ensures file.None? ==> r == e
  {
    if file.Some? then e.(file := file, fileName := file.value.name) else e
  }

  /** The saved document: the edit's title and description, and the edit's file, name and size when it has a file. */
  function UpdatedDoc(d: Document, e: DocumentEdit): (r: Document)
    ensures r.id == d.id && r.uploadedAt == d.uploadedAt
    ensures r.title == e.title && r.description == e.description
    ensures e.file.Some? ==> r.file == e.file && r.fileName == e.fileName && r.fileSize == e.file.value.size
    ensures e.file.None? ==> r.file == d.file && r.fileName == d.fileName && r.fileSize == d.fileSize
  {
    var u := d.(title := e.title, description := e.description);
    if e.file.Some? then u.(file := e.file, fileName := e.fileName, fileSize := e.file.value.size) else u
  }

  /** Saving never makes a document's name or size disagree with its file. */
  lemma UpdatedDocConsistent(d: Document, e: DocumentEdit)
    requires Consistent(d) && EditConsistent(e)
    ensures Consistent(UpdatedDoc(d, e))
  {
  }

  /** The list after saving an edit. */
  function WithEdit(docs: seq<Document>, id: string, e: DocumentEdit): (r: seq<Document>)
    ensures |r| == |docs|
    ensures forall i :: 0 <= i < |r| ==> r[i] == if docs[i].id == id then UpdatedDoc(docs[i], e) else docs[i]
  {
    seq(|docs|, i requires 0 <= i < |docs| => if docs[i].id == id then UpdatedDoc(docs[i], e) else docs[i])
  }

  function IdIsNot(id: string): Document -> bool {
    (d: Document) => d.id != id
  }

  /** The list after deleting: documents with that id removed, the others kept in order. */
  function WithoutId(docs: seq<Document>, id: string): (r: seq<Document>)
    ensures forall i :: 0 <= i < |r| ==> r[i].id != id && r[i] in docs
    ensures forall i :: 0 <= i < |docs| && docs[i].id != id ==> docs[i] in r
  {
    Filter(docs, IdIsNot(id))
  }

  /**
   * Deleting keeps the order: the list around any one element is filtered piecewise, and
   * that element goes exactly when it carries the id.
   */
  lemma DeleteKeepsOrder(a: seq<Document>, x: Document, b: seq<Document>, id: string)
    ensures WithoutId(a + [x] + b, id) == WithoutId(a, id) + (if x.id == id then [] else [x]) + WithoutId(b, id)
  {
    FilterAround(a, x, b, IdIsNot(id));
  }

  predicate AllConsistent(docs: seq<Document>) {
    forall i :: 0 <= i < |docs| ==> Consistent(docs[i])
  }

  /** Adding, editing and deleting keep every document's name and size those of its file. */
  lemma OperationsKeepConsistency(docs: seq<Document>, f: DocumentForm, freshId: string, now: int,
                                  id: string, e: DocumentEdit)
    requires AllConsistent(docs) && EditConsistent(e)
    ensures f.file.Some? ==> AllConsistent(docs + [NewDocument(f, freshId, now)])
    ensures AllConsistent(WithEdit(docs, id, e))
    ensures AllConsistent(WithoutId(docs, id))
  {
    forall i | 0 <= i < |docs|
      ensures Consistent(WithEdit(docs, id, e)[i])
    {
      UpdatedDocConsistent(docs[i], e);
    }
    var r := WithoutId(docs, id);
    forall i | 0 <= i < |r|
      ensures Consistent(r[i])
    {
      var j :| 0 <= j < |docs| && docs[j] == r[i];
    }
  }

  /** Deleting the document just added under a fresh id gives back the list before. */
  lemma AddThenDelete(docs: seq<Document>, f: DocumentForm, freshId: string, now: int)
    requires f.file.Some?
    requires forall i :: 0 <= i < |docs| ==> docs[i].id != freshId
    ensures WithoutId(docs + [NewDocument(f, freshId, now)], freshId) == docs
  {
    var d := NewDocument(f, freshId, now);
    FilterAppend(docs, [d], IdIsNot(freshId));
    FilterAll(docs, IdIsNot(freshId));
    assert Filter([d], IdIsNot(freshId)) == [] by {
      assert [d][1..] == [];
    }
  }

  /** The section's state. */
  class DocumentsView {
    var documents: seq<Document>
    var isAddingDocument: bool
    var formData: DocumentForm
    var editingId: Option<string>
    var editData: DocumentEdit
    var deleteDialogOpen: bool
    var documentToDelete: Option<string>

    /** Every document, and the edit in progress, agree with their files. */
    predicate Valid()
      reads this
    {
      AllConsistent(documents) && EditConsistent(editData)
    }

    constructor ()
      ensures Valid()
      ensures documents == [] && !isAddingDocument && formData == EmptyForm
      ensures editingId.None? && editData == EmptyEdit && !deleteDialogOpen && documentToDelete.None?
    {
      documents := [];
      isAddingDocument := false;
      formData := EmptyForm;
      editingId := None;
      editData := EmptyEdit;
      deleteDialogOpen := false;
      documentToDelete := None;
    }

    method StartAdding()
      requires Valid()
      modifies this`isAddingDocument
      ensures Valid() && isAddingDocument
    {
      isAddingDocument := true;
    }

    /** Typing the title or description of the add form. */
    method UpdateFormText(title: string, description: string)
      requires Valid()
      modifies this`formData
      ensures Valid() && formData == old(formData).(title := title, description := description)
    {
      formData := formData.(title := title, description := description);
    }

    /** `handleFileChange`: a chosen file goes into the add form; no file changes nothing. */
    method HandleFileChange(file: Option<File>)
      requires Valid()
      modifies this`formData
      ensures Valid()
      ensures formData == if file.Some? then old(formData).(file := file) else old(formData)
    {
      if file.Some? {
        formData := formData.(file := file);
      }
    }

    /** `handleAddDocument`: with a title and a file the document is appended and the form cleared and closed; otherwise nothing changes. */
    method HandleAddDocument(freshId: string, now: int)
      requires Valid()
      modifies this`documents, this`formData, this`isAddingDocument
      ensures Valid()
      ensures FormComplete(old(formData)) ==>
        && documents == old(documents) + [NewDocument(old(formData), freshId, now)]
        && formData == EmptyForm && !isAddingDocument
      ensures !FormComplete(old(formData)) ==>
        documents == old(documents) && formData == old(formData) && isAddingDocument == old(isAddingDocument)
    {
      if formData.title != "" && formData.file.Some? {
        OperationsKeepConsistency(documents, formData, freshId, now, "", editData);
        documents := documents + [NewDocument(formData, freshId, now)];
        formData := EmptyForm;
        isAddingDocument := false;
      }
    }

    /** `handleCancel`: the add form is cleared and closed. */
    method HandleCancel()
      requires Valid()
      modifies this`formData, this`isAddingDocument
      ensures Valid() && formData == EmptyForm && !isAddingDocument
    {
      formData := EmptyForm;
      isAddingDocument := false;
    }

    /** `handleStartEdit`: edit that document, starting from its title, description and file name, with no new file. */
    method HandleStartEdit(d: Document)
      requires Valid()
      modifies this`editData, this`editingId
      ensures Valid()
      ensures editData == DocumentEdit(d.title, d.description, None, d.fileName) && editingId == Some(d.id)
    {
      editData := DocumentEdit(d.title, d.description, None, d.fileName);
      editingId := Some(d.id);
    }

    /** Typing the title or description of the edit. */
    method UpdateEditText(title: string, description: string)
      requires Valid()
      modifies this`editData
      ensures Valid() && editData == old(editData).(title := title, description := description)
    {
      editData := editData.(title := title, description := description);
    }

    /** `handleEditFileChange`. */
    method HandleEditFileChange(file: Option<File>)
      requires Valid()
      modifies this`editData
      ensures Valid() && editData == EditWithFile(old(editData), file)
    {
      editData := EditWithFile(editData, file);
    }

    /** `handleSaveEdit`: with an id and a title the edit is written and closed; otherwise nothing changes. */
    method HandleSaveEdit()
      requires Valid()
      modifies this`documents, this`editingId, this`editData
      ensures Valid()
      ensures var ok := Truthy(old(editingId)) && old(editData).title != "";
        && (ok ==> && documents == WithEdit(old(documents), old(editingId).value, old(editData))
                   && editingId.None? && editData == EmptyEdit)
        && (!ok ==> documents == old(documents) && editingId == old(editingId) && editData == old(editData))
    {
      if editingId.Some? && editingId.value != "" && editData.title != "" {
        OperationsKeepConsistency(documents, EmptyForm, "", 0, editingId.value, editData);
        documents := WithEdit(documents, editingId.value, editData);
        editingId := None;
        editData := EmptyEdit;
      }
    }

    /** `handleCancelEdit`. */
    method HandleCancelEdit()
      requires Valid()
      modifies this`editingId, this`editData
      ensures Valid() && editingId.None? && editData == EmptyEdit
    {
      editingId := None;
      editData := EmptyEdit;
    }

    /** `handleOpenDeleteDialog`. */
    method HandleOpenDeleteDialog(id: string)
      requires Valid()
      modifies this`documentToDelete, this`deleteDialogOpen
      ensures Valid() && documentToDelete == Some(id) && deleteDialogOpen
    {
      documentToDelete := Some(id);
      deleteDialogOpen := true;
    }

    /** `handleConfirmDelete`: with a remembered id its documents are removed and the dialog closed; otherwise nothing changes. */
    method HandleConfirmDelete()
      requires Valid()
      modifies this`documents, this`documentToDelete, this`deleteDialogOpen
      ensures Valid()
      ensures Truthy(old(documentToDelete)) ==>
        && documents == WithoutId(old(documents), old(documentToDelete).value)
        && documentToDelete.None? && !deleteDialogOpen
      ensures !Truthy(old(documentToDelete)) ==>
        documents == old(documents) && documentToDelete == old(documentToDelete) && deleteDialogOpen == old(deleteDialogOpen)
    {
      if documentToDelete.Some? && documentToDelete.value != "" {
        OperationsKeepConsistency(documents, EmptyForm, "", 0, documentToDelete.value, editData);
        documents := WithoutId(documents, documentToDelete.value);
        deleteDialogOpen := false;
        documentToDelete := None;
      }
    }

    /** The dialog's "No". */
    method DismissDeleteDialog()
      requires Valid()
      modifies this`documentToDelete, this`deleteDialogOpen
      ensures Valid() && documentToDelete.None? && !deleteDialogOpen
    {
      deleteDialogOpen := false;
      documentToDelete := None;
    }
  }
}
