/**
  The contact list editor: an ordered in-memory list of contacts with an
  add/edit form. Saving either rewrites every entry carrying the edited
  contact's id or appends a new contact; deleting filters by id.
 */
module Contacts {
  import opened Wrappers
  import IdLists

  /** Image asset references; the pictures themselves are not modelled. */
  const MomImage: string := "contact-mom.jpg"
  const BossImage: string := "contact-boss.jpg"

  datatype Contact = Contact(id: string, name: string, phone: string, relationship: string, image: string)

  /** The edit form: every field of a contact except its id. */
  datatype Form = Form(name: string, phone: string, relationship: string, image: string)

  const EmptyForm: Form := Form("", "", "", "")

  /** The choices the relationship selector offers. */
  const Relationships: seq<string> := ["Mom", "Dad", "Boss", "Doctor", "Friend", "Spouse", "Other"]

  const DefaultContacts: seq<Contact> := [
    Contact("1", "Mom", "+1 (555) 123-4567", "Mom", MomImage),
    Contact("2", "John Smith", "+1 (555) 987-6543", "Boss", BossImage)
  ]

  function ContactId(c: Contact): string
  {
    c.id
  }

  /** The form as editing a contact loads it. */
  function FormOf(c: Contact): Form
  {
    Form(c.name, c.phone, c.relationship, c.image)
  }

  /** The save button is enabled only when both name and phone are filled in. */
  predicate CanSave(f: Form)
  {
    f.name != "" && f.phone != ""
  }

  /** Every contact has a name and a phone number. */
  predicate AllSavable(cs: seq<Contact>)
  {
    forall i :: 0 <= i < |cs| ==> cs[i].name != "" && cs[i].phone != ""
  }

  /** No two contacts share an id. */
  predicate UniqueIds(cs: seq<Contact>)
  {
    forall i, j :: 0 <= i < j < |cs| ==> cs[i].id != cs[j].id
  }

  /** `{ ...c, ...formData }`: the form's fields laid over the contact, whose id stays. */
  function Merge(c: Contact, f: Form): (r: Contact)
    ensures r.id == c.id && FormOf(r) == f
  {
    Contact(c.id, f.name, f.phone, f.relationship, f.image)
  }

  /**
    Saving an edit: every entry whose id is `id` takes the form's fields and
    keeps its id and position; every other entry is left as it was.
   */
  function UpdateById(cs: seq<Contact>, id: string, f: Form): (r: seq<Contact>)
    ensures |r| == |cs|
    ensures forall i :: 0 <= i < |cs| ==> r[i].id == cs[i].id
    ensures forall i :: 0 <= i < |cs| && cs[i].id == id ==> FormOf(r[i]) == f
    ensures forall i :: 0 <= i < |cs| && cs[i].id != id ==> r[i] == cs[i]
  {
    if cs == [] then []
    else [if cs[0].id == id then Merge(cs[0], f) else cs[0]] + UpdateById(cs[1..], id, f)
  }

  /**
    The contact that saving in add mode appends: the form's fields under the
    new id, with the default image when the form has none.
   */
  function NewContact(id: string, f: Form): (c: Contact)
    ensures c.id == id && c.name == f.name && c.phone == f.phone && c.relationship == f.relationship
    ensures c.image != ""
    ensures f.image != "" ==> c.image == f.image
    ensures f.image == "" ==> c.image == MomImage
  {
    Contact(id, f.name, f.phone, f.relationship, if f.image != "" then f.image else MomImage)
  }

  /** The contacts the screen starts with have names and phones and distinct ids. */
  lemma DefaultContactsWellFormed()
    ensures AllSavable(DefaultContacts) && UniqueIds(DefaultContacts)
  {
  }

  /**
    Editing a contact and saving the form as loaded leaves the list as it was,
    when ids are unique.
   */
  lemma EditSaveUnchanged(cs: seq<Contact>, c: Contact)
    requires c in cs && UniqueIds(cs)
    ensures UpdateById(cs, c.id, FormOf(c)) == cs
  {
    var r := UpdateById(cs, c.id, FormOf(c));
    var j :| 0 <= j < |cs| && cs[j] == c;
    forall i | 0 <= i < |cs|
      ensures r[i] == cs[i]
    {
      if cs[i].id == c.id {
        assert i == j;
      }
    }
  }

  /** Saving an edit with a complete form keeps every contact complete. */
  lemma UpdateKeepsSavable(cs: seq<Contact>, id: string, f: Form)
    requires AllSavable(cs) && CanSave(f)
    ensures AllSavable(UpdateById(cs, id, f))
  {
    var r := UpdateById(cs, id, f);
    forall i | 0 <= i < |r|
      ensures r[i].name != "" && r[i].phone != ""
    {
      if cs[i].id == id {
        assert FormOf(r[i]) == f;
      }
    }
  }

  /** Deleting keeps every remaining contact complete. */
  lemma DeleteKeepsSavable(cs: seq<Contact>, id: string)
    requires AllSavable(cs)
    ensures AllSavable(IdLists.WithoutId(cs, ContactId, id))
  {
    var r := IdLists.WithoutId(cs, ContactId, id);
    forall i | 0 <= i < |r|
      ensures r[i].name != "" && r[i].phone != ""
    {
      assert r[i] in cs;
    }
  }

  /** Appending a contact under a fresh id keeps ids unique. */
  lemma AppendFreshKeepsUnique(cs: seq<Contact>, c: Contact)
    requires UniqueIds(cs) && IdLists.Absent(cs, ContactId, c.id)
    ensures UniqueIds(cs + [c])
  {
  }

  /** The contacts screen: its list, whether the form is open, and the form. */
  class ContactsScreen {
    var contacts: seq<Contact>
    var isEditing: bool
    /** The contact the open form edits; `None` when it adds a new one. */
    var editingContact: Option<Contact>
    var formData: Form

    ghost predicate Valid()
      reads this
    {
      AllSavable(contacts)
    }

    constructor ()
      ensures Valid()
      ensures contacts == DefaultContacts && !isEditing && editingContact == None && formData == EmptyForm
    {
      contacts := DefaultContacts;
      isEditing := false;
      editingContact := None;
      formData := EmptyForm;
      DefaultContactsWellFormed();
    }

    /** "Add New": an empty form that will append. */
    method AddNew()
      modifies this
      ensures formData == EmptyForm && editingContact == None && isEditing
      ensures contacts == old(contacts)
    {
      formData := EmptyForm;
      editingContact := None;
      isEditing := true;
    }

    /** The edit button of a listed contact: the form loaded with that contact. */
    method Edit(c: Contact)
      requires c in contacts
      modifies this
      ensures formData == FormOf(c) && editingContact == Some(c) && isEditing
      ensures contacts == old(contacts)
    {
      formData := FormOf(c);
      editingContact := Some(c);
      isEditing := true;
    }

    /** "Cancel" closes the form and forgets nothing else, not even the edited contact. */
    method CancelEdit()
      modifies this`isEditing
      ensures !isEditing
    {
      isEditing := false;
    }

    method SetName(name: string)
      modifies this`formData
      ensures formData == old(formData).(name := name)
    {
      formData := formData.(name := name);
    }

    method SetPhone(phone: string)
      modifies this`formData
      ensures formData == old(formData).(phone := phone)
    {
      formData := formData.(phone := phone);
    }

    method SetRelationship(relationship: string)
      requires relationship in Relationships
      modifies this`formData
      ensures formData == old(formData).(relationship := relationship)
    {
      formData := formData.(relationship := relationship);
    }

    /**
      "Save Contact", enabled only with a name and a phone. `newId` is the id
      an added contact gets from the clock.
     */
    method Save(newId: string)
      requires Valid() && CanSave(formData)
      modifies this
      ensures Valid()
      ensures contacts == match old(editingContact)
        case Some(e) => UpdateById(old(contacts), e.id, old(formData))
        case None => old(contacts) + [NewContact(newId, old(formData))]
      ensures !isEditing && editingContact == None && formData == old(formData)
    {
      match editingContact {
        case Some(e) =>
          UpdateKeepsSavable(contacts, e.id, formData);
          contacts := UpdateById(contacts, e.id, formData);
        case None =>
          contacts := contacts + [NewContact(newId, formData)];
      }
      isEditing := false;
      editingContact := None;
    }

    /** The delete button: every contact carrying `id` goes. */
    method Delete(id: string)
      requires Valid()
      modifies this`contacts
      ensures Valid()
      ensures contacts == IdLists.WithoutId(old(contacts), ContactId, id)
    {
      DeleteKeepsSavable(contacts, id);
      contacts := IdLists.WithoutId(contacts, ContactId, id);
    }
  }
}
