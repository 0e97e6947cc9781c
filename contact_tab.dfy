/**
 * The emergency-contacts tab of the flood plan: the contact list, the add form,
 * inline editing, deletion behind a confirmation dialog, and the three category
 * sections.
 */
module ContactTab {
  import opened Wrappers
  import opened Lists

  datatype ContactCategory = Personal | Public | Utility

  datatype Contact = Contact(id: string, name: string, number: string, category: ContactCategory)

  /** The add form; an unselected category is `None` (the form's empty string). */
  datatype ContactForm = ContactForm(category: Option<ContactCategory>, name: string, number: string)

  /** The inline edit fields. */
  datatype ContactEdit = ContactEdit(name: string, number: string)

  const EmptyForm := ContactForm(None, "", "")
  const EmptyEdit := ContactEdit("", "")

  /** A JavaScript-truthy optional id: present and not the empty string. */
  predicate Truthy(id: Option<string>) {
    id.Some? && id.value != ""
  }

  /** The add form is complete: a category, a name and a number. */
  predicate FormComplete(f: ContactForm) {
    f.category.Some? && f.name != "" && f.number != ""
  }

  /** The contact the add form creates under a fresh id. */
  function NewContact(f: ContactForm, freshId: string): (c: Contact)
    requires f.category.Some?
    ensures c.id == freshId && c.name == f.name && c.number == f.number && c.category == f.category.value
  {
    Contact(freshId, f.name, f.number, f.category.value)
  }

  /** The list after saving an edit: every contact with that id gets the new name and number. */
  function WithEdit(contacts: seq<Contact>, id: string, e: ContactEdit): (r: seq<Contact>)
    ensures |r| == |contacts|
    ensures forall i :: 0 <= i < |r| ==> r[i].id == contacts[i].id && r[i].category == contacts[i].category
    ensures forall i :: 0 <= i < |r| && contacts[i].id == id ==> r[i].name == e.name && r[i].number == e.number
    ensures forall i :: 0 <= i < |r| && contacts[i].id != id ==> r[i] == contacts[i]
  {
    seq(|contacts|, i requires 0 <= i < |contacts| =>
      if contacts[i].id == id then contacts[i].(name := e.name, number := e.number) else contacts[i])
  }

  function IdIsNot(id: string): Contact -> bool {
    (c: Contact) => c.id != id
  }

  function InCategory(cat: ContactCategory): Contact -> bool {
    (c: Contact) => c.category == cat
  }

  /** The list after deleting: every contact with that id removed, the others kept in order. */
  function WithoutId(contacts: seq<Contact>, id: string): (r: seq<Contact>)
    ensures forall i :: 0 <= i < |r| ==> r[i].id != id && r[i] in contacts
    ensures forall i :: 0 <= i < |contacts| && contacts[i].id != id ==> contacts[i] in r
  {
    Filter(contacts, IdIsNot(id))
  }

  /**
   * Deleting keeps the order: the list around any one element is filtered piecewise, and
   * that element goes exactly when it carries the id.
   */
  lemma DeleteKeepsOrder(a: seq<Contact>, x: Contact, b: seq<Contact>, id: string)
    ensures WithoutId(a + [x] + b, id) == WithoutId(a, id) + (if x.id == id then [] else [x]) + WithoutId(b, id)
  {
    FilterAround(a, x, b, IdIsNot(id));
  }

  /** The contacts of one section, in list order. */
  function OfCategory(contacts: seq<Contact>, cat: ContactCategory): (r: seq<Contact>)
    ensures forall i :: 0 <= i < |r| ==> r[i].category == cat && r[i] in contacts
    ensures forall i :: 0 <= i < |contacts| && contacts[i].category == cat ==> contacts[i] in r
  {
    Filter(contacts, InCategory(cat))
  }

  /** The three sections together show every contact exactly once. */
  lemma {:induction false} SectionsPartition(contacts: seq<Contact>)
    ensures |OfCategory(contacts, Personal)| + |OfCategory(contacts, Public)| + |OfCategory(contacts, Utility)| == |contacts|
    ensures multiset(OfCategory(contacts, Personal)) + multiset(OfCategory(contacts, Public))
            + multiset(OfCategory(contacts, Utility)) == multiset(contacts)
    decreases |contacts|
  {
    if contacts != [] {
      SectionsPartition(contacts[1..]);
      assert contacts == [contacts[0]] + contacts[1..];
    }
  }

  /** Editing never moves a contact between sections. */
  lemma {:induction false} EditKeepsSectionSizes(contacts: seq<Contact>, id: string, e: ContactEdit, cat: ContactCategory)
    ensures |OfCategory(WithEdit(contacts, id, e), cat)| == |OfCategory(contacts, cat)|
    decreases |contacts|
  {
    if contacts != [] {
      EditKeepsSectionSizes(contacts[1..], id, e, cat);
      assert WithEdit(contacts, id, e)[1..] == WithEdit(contacts[1..], id, e);
    }
  }

  /** Deleting a contact whose id is fresh removes exactly the contact just added. */
  lemma AddThenDelete(contacts: seq<Contact>, c: Contact)
    requires forall i :: 0 <= i < |contacts| ==> contacts[i].id != c.id
    ensures WithoutId(contacts + [c], c.id) == contacts
  {
    FilterAppend(contacts, [c], IdIsNot(c.id));
    FilterAll(contacts, IdIsNot(c.id));
    assert Filter([c], IdIsNot(c.id)) == [] by {
      assert [c][1..] == [];
    }
  }

  /** Deleting removes as many contacts as carry the id, and only those. */
  lemma DeleteCount(contacts: seq<Contact>, id: string)
    ensures |WithoutId(contacts, id)| + |Filter(contacts, (c: Contact) => c.id == id)| == |contacts|
  {
    FilterSplit(contacts, (c: Contact) => c.id == id, IdIsNot(id));
  }

  /** The tab's state. */
  class ContactTabView {
    var contacts: seq<Contact>
    var isAddingContact: bool
    var formData: ContactForm
    var editingId: Option<string>
    var editData: ContactEdit
    var deleteDialogOpen: bool
    var contactToDelete: Option<string>
    var sectionOpen: map<ContactCategory, bool>

    /** The tab on mount: the given contacts, nothing being added, edited or deleted, every section open. */
    constructor (initial: seq<Contact>)
      ensures contacts == initial && !isAddingContact && formData == EmptyForm
      ensures editingId.None? && editData == EmptyEdit && !deleteDialogOpen && contactToDelete.None?
      ensures sectionOpen == map[Personal := true, Public := true, Utility := true]
    {
      contacts := initial;
      isAddingContact := false;
      formData := EmptyForm;
      editingId := None;
      editData := EmptyEdit;
      deleteDialogOpen := false;
      contactToDelete := None;
      sectionOpen := map[Personal := true, Public := true, Utility := true];
    }

    /** "Add Contact" opens the form. */
    method StartAdding()
      modifies this`isAddingContact
      ensures isAddingContact
    {
      isAddingContact := true;
    }

    /** Typing into or choosing in the add form. */
    method UpdateForm(f: ContactForm)
      modifies this`formData
      ensures formData == f
    {
      formData := f;
    }

    /** `handleAddContact`: a complete form appends the new contact, clears and closes the form; otherwise nothing changes. */
    method HandleAddContact(freshId: string)
      modifies this`contacts, this`formData, this`isAddingContact
      ensures FormComplete(old(formData)) ==>
        contacts == old(contacts) + [NewContact(old(formData), freshId)] && formData == EmptyForm && !isAddingContact
      ensures !FormComplete(old(formData)) ==>
        contacts == old(contacts) && formData == old(formData) && isAddingContact == old(isAddingContact)
    {
      if formData.category.Some? && formData.name != "" && formData.number != "" {
        contacts := contacts + [Contact(freshId, formData.name, formData.number, formData.category.value)];
        formData := EmptyForm;
        isAddingContact := false;
      }
    }

    /** `handleCancel`: the form is cleared and closed. */
    method HandleCancel()
      modifies this`formData, this`isAddingContact
      ensures formData == EmptyForm && !isAddingContact
    {
      formData := EmptyForm;
      isAddingContact := false;
    }

    /** `handleStartEdit`: edit that contact, starting from its name and number. */
    method HandleStartEdit(c: Contact)
      modifies this`editingId, this`editData
      ensures editingId == Some(c.id) && editData == ContactEdit(c.name, c.number)
    {
      editingId := Some(c.id);
      editData := ContactEdit(c.name, c.number);
    }

    /** Typing into the edit fields. */
    method UpdateEdit(e: ContactEdit)
      modifies this`editData
      ensures editData == e
    {
      editData := e;
    }

    /** `handleSaveEdit`: with an id and both fields filled, the edit is written and closed; otherwise nothing changes. */
    method HandleSaveEdit()
      modifies this`contacts, this`editingId, this`editData
      ensures var ok := Truthy(old(editingId)) && old(editData).name != "" && old(editData).number != "";
        && (ok ==> contacts == WithEdit(old(contacts), old(editingId).value, old(editData))
                   && editingId.None? && editData == EmptyEdit)
        && (!ok ==> contacts == old(contacts) && editingId == old(editingId) && editData == old(editData))
    {
      if editingId.Some? && editingId.value != "" && editData.name != "" && editData.number != "" {
        contacts := WithEdit(contacts, editingId.value, editData);
        editingId := None;
        editData := EmptyEdit;
      }
    }

    /** `handleCancelEdit`: the edit is dropped. */
    method HandleCancelEdit()
      modifies this`editingId, this`editData
      ensures editingId.None? && editData == EmptyEdit
    {
      editingId := None;
      editData := EmptyEdit;
    }

    /** `handleOpenDeleteDialog`: remember the contact and ask for confirmation. */
    method HandleOpenDeleteDialog(id: string)
      modifies this`contactToDelete, this`deleteDialogOpen
      ensures contactToDelete == Some(id) && deleteDialogOpen
    {
      contactToDelete := Some(id);
      deleteDialogOpen := true;
    }

    /** `handleConfirmDelete`: with a remembered id, remove its contacts and close the dialog; otherwise nothing changes. */
    method HandleConfirmDelete()
      modifies this`contacts, this`contactToDelete, this`deleteDialogOpen
      ensures Truthy(old(contactToDelete)) ==>
        contacts == WithoutId(old(contacts), old(contactToDelete).value) && contactToDelete.None? && !deleteDialogOpen
      ensures !Truthy(old(contactToDelete)) ==>
        contacts == old(contacts) && contactToDelete == old(contactToDelete) && deleteDialogOpen == old(deleteDialogOpen)
    {
      if contactToDelete.Some? && contactToDelete.value != "" {
        contacts := WithoutId(contacts, contactToDelete.value);
        deleteDialogOpen := false;
        contactToDelete := None;
      }
    }

    /** The dialog's "No": close it and forget the contact. */
    method DismissDeleteDialog()
      modifies this`contactToDelete, this`deleteDialogOpen
      ensures contactToDelete.None? && !deleteDialogOpen
    {
      deleteDialogOpen := false;
      contactToDelete := None;
    }

    /** A section header opens or collapses its section. */
    method SetSectionOpen(cat: ContactCategory, open: bool)
      modifies this`sectionOpen
      ensures sectionOpen == old(sectionOpen)[cat := open]
    {
      sectionOpen := sectionOpen[cat := open];
    }
  }
}
