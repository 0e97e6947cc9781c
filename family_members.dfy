/**
 * The family-members section of the flood plan: the member list, one form shared
 * by adding and editing, ages from dates of birth, and deletion behind a
 * confirmation dialog.
 */
module FamilyMembers {
  import opened Wrappers
  import opened Lists

  /** A calendar date as the browser reports it: full year, month 0-11, day of the month. */
  datatype Date = Date(year: int, month: int, day: int)

  /** `a` is on or before `b`. */
  predicate DateLe(a: Date, b: Date) {
    a.year < b.year || (a.year == b.year && (a.month < b.month || (a.month == b.month && a.day <= b.day)))
  }

  datatype FamilyMember = FamilyMember(
    id: string, name: string, lastName: string, dateOfBirth: Option<Date>,
    phoneNumber: string, hasMedicalCondition: bool, medicalConditionNote: string)

  /**
   * The shared form. Loading a member into it for editing copies the whole member, so
   * the form then also carries that member's `id`; a cleared form carries none.
   */
  datatype FamilyForm = FamilyForm(
    id: Option<string>, name: string, lastName: string, dateOfBirth: Option<Date>,
    phoneNumber: string, hasMedicalCondition: bool, medicalConditionNote: string)

  /** The member the delete dialog names. */
  datatype DeleteTarget = DeleteTarget(id: string, name: string, lastName: string)

  const EmptyForm := FamilyForm(None, "", "", None, "", false, "")

  /** The form loaded with a member, as `setFamilyFormData(member)` leaves it. */
  function FormOf(m: FamilyMember): (f: FamilyForm)
    ensures f.id == Some(m.id) && f.name == m.name && f.lastName == m.lastName
    ensures f.dateOfBirth == m.dateOfBirth && f.phoneNumber == m.phoneNumber
    ensures f.hasMedicalCondition == m.hasMedicalCondition && f.medicalConditionNote == m.medicalConditionNote
  {
    FamilyForm(Some(m.id), m.name, m.lastName, m.dateOfBirth, m.phoneNumber, m.hasMedicalCondition, m.medicalConditionNote)
  }

  /** `calculateAge`: full years between the date of birth and today, none without a date of birth. */
  function CalculateAge(dateOfBirth: Option<Date>, today: Date): Option<int> {
    if dateOfBirth.None? then None
    else
      var dob := dateOfBirth.value;
      var age := today.year - dob.year;
      var monthDiff := today.month - dob.month;
      if monthDiff < 0 || (monthDiff == 0 && today.day < dob.day) then Some(age - 1) else Some(age)
  }

  /** The age is the number of birthdays reached: the latest one is on or before today and the next one after it. */
  lemma AgeIsBirthdaysReached(dob: Date, today: Date)
    ensures CalculateAge(Some(dob), today).Some?
    ensures var age := CalculateAge(Some(dob), today).value;
      && DateLe(Date(dob.year + age, dob.month, dob.day), today)
      && !DateLe(Date(dob.year + age + 1, dob.month, dob.day), today)
  {
  }

  /** A date of birth not in the future gives an age of at least zero, and no date of birth gives no age. */
  lemma AgeNonNegative(dateOfBirth: Option<Date>, today: Date)
    ensures dateOfBirth.None? <==> CalculateAge(dateOfBirth, today).None?
    ensures dateOfBirth.Some? && DateLe(dateOfBirth.value, today) ==> CalculateAge(dateOfBirth, today).value >= 0
  {
  }

  /** The form can be submitted: both names filled. */
  predicate FormComplete(f: FamilyForm) {
    f.name != "" && f.lastName != ""
  }

  /** The member `{ id: freshId, ...familyFormData }` builds: an id the form carries overrides the fresh one. */
  function NewMemberAsWritten(f: FamilyForm, freshId: string): FamilyMember {
    FamilyMember(f.id.GetOr(freshId), f.name, f.lastName, f.dateOfBirth, f.phoneNumber,
                 f.hasMedicalCondition, f.medicalConditionNote)
  }

  /** The member the add form is meant to build: the form's fields under the fresh id. */
  function NewMember(f: FamilyForm, freshId: string): (m: FamilyMember)
    ensures m.id == freshId
    ensures FormOf(m) == f.(id := Some(freshId))
  {
    FamilyMember(freshId, f.name, f.lastName, f.dateOfBirth, f.phoneNumber,
                 f.hasMedicalCondition, f.medicalConditionNote)
  }

  /** No two members share an id. */
  predicate UniqueIds(members: seq<FamilyMember>) {
    forall a, b :: 0 <= a < b < |members| ==> members[a].id != members[b].id
  }

  /**
   * As written, adding while the form still holds a member being edited gives the new
   * member that member's id: two members then share it, and deleting either removes both.
   */
  lemma AddAsWrittenDuplicatesId()
    ensures var x := FamilyMember("1", "Ann", "Lee", None, "", false, "");
      var added := [x] + [NewMemberAsWritten(FormOf(x), "2")];
      && FormComplete(FormOf(x))
      && UniqueIds([x])
      && !UniqueIds(added)
      && WithoutMember(added, "1") == []
  {
    var x := FamilyMember("1", "Ann", "Lee", None, "", false, "");
    var added := [x] + [NewMemberAsWritten(FormOf(x), "2")];
    assert added[0].id == added[1].id;
    assert Filter(added, IdIsNot("1")) == [] by {
      assert added[1..][1..] == [];
    }
  }

  /** With a fresh id, adding keeps ids unique, whatever the form carries. */
  lemma AddKeepsIdsUnique(members: seq<FamilyMember>, f: FamilyForm, freshId: string)
    requires UniqueIds(members)
    requires forall i :: 0 <= i < |members| ==> members[i].id != freshId
    ensures UniqueIds(members + [NewMember(f, freshId)])
  {
  }

  function HasId(id: string): FamilyMember -> bool {
    (m: FamilyMember) => m.id == id
  }

  function IdIsNot(id: string): FamilyMember -> bool {
    (m: FamilyMember) => m.id != id
  }

  /** `familyMembers.find(m => m.id === memberId)`. */
  function FindMember(members: seq<FamilyMember>, id: string): (r: Option<FamilyMember>)
    ensures r.Some? <==> exists i :: 0 <= i < |members| && members[i].id == id
    ensures r.Some? ==> r.value in members && r.value.id == id
    ensures r.Some? ==>
      exists k :: 0 <= k < |members| && r.value == members[k] && forall j :: 0 <= j < k ==> members[j].id != id
  {
    match FindIndex(members, HasId(id))
    case Some(k) => Some(members[k])
    case None =>
      assert forall i :: 0 <= i < |members| ==> !HasId(id)(members[i]);
      None
  }

  /** `{ ...m, ...familyFormData }`: the form's fields over the member, and the form's id if it carries one. */
  function Merge(m: FamilyMember, f: FamilyForm): FamilyMember {
    FamilyMember(f.id.GetOr(m.id), f.name, f.lastName, f.dateOfBirth, f.phoneNumber,
                 f.hasMedicalCondition, f.medicalConditionNote)
  }

  /** The list after saving an edit: members with that id take the form's fields. */
  function WithMemberEdit(members: seq<FamilyMember>, id: string, f: FamilyForm): (r: seq<FamilyMember>)
    ensures |r| == |members|
    ensures forall i :: 0 <= i < |r| ==> r[i] == if members[i].id == id then Merge(members[i], f) else members[i]
  {
    seq(|members|, i requires 0 <= i < |members| => if members[i].id == id then Merge(members[i], f) else members[i])
  }

  /**
   * Saving an edit whose form carries no id or the edited member's own id keeps every
   * id, so unique ids stay unique, and the edited members show the form's fields.
   */
  lemma EditKeepsIds(members: seq<FamilyMember>, id: string, f: FamilyForm)
    requires f.id.None? || f.id == Some(id)
    ensures forall i :: 0 <= i < |members| ==> WithMemberEdit(members, id, f)[i].id == members[i].id
    ensures UniqueIds(members) ==> UniqueIds(WithMemberEdit(members, id, f))
    ensures forall i :: 0 <= i < |members| && members[i].id == id ==>
              FormOf(WithMemberEdit(members, id, f)[i]) == f.(id := Some(id))
  {
  }

  /** The list after deleting: members with that id removed, the others kept in order. */
  function WithoutMember(members: seq<FamilyMember>, id: string): (r: seq<FamilyMember>)
    ensures forall i :: 0 <= i < |r| ==> r[i].id != id && r[i] in members
    ensures forall i :: 0 <= i < |members| && members[i].id != id ==> members[i] in r
  {
    Filter(members, IdIsNot(id))
  }

  /**
   * Deleting keeps the order: the list around any one element is filtered piecewise, and
   * that element goes exactly when it carries the id.
   */
  lemma DeleteKeepsOrder(a: seq<FamilyMember>, x: FamilyMember, b: seq<FamilyMember>, id: string)
    ensures WithoutMember(a + [x] + b, id) == WithoutMember(a, id) + (if x.id == id then [] else [x]) + WithoutMember(b, id)
  {
    FilterAround(a, x, b, IdIsNot(id));
  }

  /** Deleting the member just added under a fresh id gives back the list before. */
  lemma AddThenDelete(members: seq<FamilyMember>, f: FamilyForm, freshId: string)
    requires forall i :: 0 <= i < |members| ==> members[i].id != freshId
    ensures WithoutMember(members + [NewMember(f, freshId)], freshId) == members
  {
    var m := NewMember(f, freshId);
    FilterAppend(members, [m], IdIsNot(freshId));
    FilterAll(members, IdIsNot(freshId));
    assert Filter([m], IdIsNot(freshId)) == [] by {
      assert [m][1..] == [];
    }
  }

  /** The section's state. */
  class FamilyMembersView {
    var familyMembers: seq<FamilyMember>
    var isAddingFamilyMember: bool
    var familyFormData: FamilyForm
    var editingFamilyMemberId: Option<string>
    var deleteDialogOpen: bool
    var memberToDelete: Option<DeleteTarget>
    var calendarOpen: bool

    /** A form carrying an id carries the id of the member being edited. */
    predicate Valid()
      reads this
    {
      familyFormData.id.Some? ==> editingFamilyMemberId == familyFormData.id
    }

    /** The section on mount: no members, nothing being added, edited or deleted. */
    constructor ()
      ensures Valid()
      ensures familyMembers == [] && !isAddingFamilyMember && familyFormData == EmptyForm
      ensures editingFamilyMemberId.None? && !deleteDialogOpen && memberToDelete.None? && !calendarOpen
    {
      familyMembers := [];
      isAddingFamilyMember := false;
      familyFormData := EmptyForm;
      editingFamilyMemberId := None;
      deleteDialogOpen := false;
      memberToDelete := None;
      calendarOpen := false;
    }

    /** "Add family member" opens the form, keeping whatever it holds. */
    method StartAdding()
      requires Valid()
      modifies this`isAddingFamilyMember
      ensures Valid() && isAddingFamilyMember
    {
      isAddingFamilyMember := true;
    }

    /** Typing into a field of the form; the id the form carries is kept. */
    method UpdateFields(name: string, lastName: string, phoneNumber: string, note: string)
      requires Valid()
      modifies this`familyFormData
      ensures Valid()
      ensures familyFormData == old(familyFormData).(name := name, lastName := lastName,
                                                     phoneNumber := phoneNumber, medicalConditionNote := note)
    {
      familyFormData := familyFormData.(name := name, lastName := lastName,
                                        phoneNumber := phoneNumber, medicalConditionNote := note);
    }

    /** Picking a date in the calendar (or clearing it) closes the calendar. */
    method SelectDateOfBirth(date: Option<Date>)
      requires Valid()
      modifies this`familyFormData, this`calendarOpen
      ensures Valid()
      ensures familyFormData == old(familyFormData).(dateOfBirth := date) && !calendarOpen
    {
      familyFormData := familyFormData.(dateOfBirth := date);
      calendarOpen := false;
    }

    /** "Yes" to a medical condition. */
    method SetMedicalConditionYes()
      requires Valid()
      modifies this`familyFormData
      ensures Valid()
      ensures familyFormData == old(familyFormData).(hasMedicalCondition := true)
    {
      familyFormData := familyFormData.(hasMedicalCondition := true);
    }

    /** "No" to a medical condition also clears the note. */
    method SetMedicalConditionNo()
      requires Valid()
      modifies this`familyFormData
      ensures Valid()
      ensures familyFormData == old(familyFormData).(hasMedicalCondition := false, medicalConditionNote := "")
    {
      familyFormData := familyFormData.(hasMedicalCondition := false, medicalConditionNote := "");
    }

    /**
     * `handleAddFamilyMember` with the new member under the fresh id: a complete form
     * appends the member, clears and closes the form; otherwise nothing changes.
     */
    method HandleAddFamilyMember(freshId: string)
      requires Valid()
      modifies this`familyMembers, this`familyFormData, this`isAddingFamilyMember
      ensures Valid()
      ensures FormComplete(old(familyFormData)) ==>
        && familyMembers == old(familyMembers) + [NewMember(old(familyFormData), freshId)]
        && familyFormData == EmptyForm && !isAddingFamilyMember
      ensures !FormComplete(old(familyFormData)) ==>
        && familyMembers == old(familyMembers) && familyFormData == old(familyFormData)
        && isAddingFamilyMember == old(isAddingFamilyMember)
    {
      if familyFormData.name != "" && familyFormData.lastName != "" {
        familyMembers := familyMembers + [NewMember(familyFormData, freshId)];
        familyFormData := EmptyForm;
        isAddingFamilyMember := false;
      }
    }

    /** `handleCancelFamilyForm`: the form is cleared and closed. */
    method HandleCancelFamilyForm()
      requires Valid()
      modifies this`familyFormData, this`isAddingFamilyMember
      ensures Valid() && familyFormData == EmptyForm && !isAddingFamilyMember
    {
      familyFormData := EmptyForm;
      isAddingFamilyMember := false;
    }

    /** `handleEditFamilyMember`: a listed member is loaded into the form and edited; an unknown id changes nothing. */
    method HandleEditFamilyMember(memberId: string)
      requires Valid()
      modifies this`familyFormData, this`editingFamilyMemberId
      ensures Valid()
      ensures var found := FindMember(old(familyMembers), memberId);
        && (found.Some? ==> familyFormData == FormOf(found.value) && editingFamilyMemberId == Some(memberId))
        && (found.None? ==> familyFormData == old(familyFormData) && editingFamilyMemberId == old(editingFamilyMemberId))
    {
      var found := FindMember(familyMembers, memberId);
      if found.Some? {
        familyFormData := FormOf(found.value);
        editingFamilyMemberId := Some(memberId);
      }
    }

    /**
     * `handleSaveFamilyMemberEdit`: for a listed member and a complete form, the form is
     * written over that member and the edit closes; otherwise nothing changes.
     */
    method HandleSaveFamilyMemberEdit(memberId: string)
      requires Valid()
      requires editingFamilyMemberId == Some(memberId)
      modifies this`familyMembers, this`familyFormData, this`editingFamilyMemberId
      ensures Valid()
      ensures var ok := FindMember(old(familyMembers), memberId).Some? && FormComplete(old(familyFormData));
        && (ok ==> && familyMembers == WithMemberEdit(old(familyMembers), memberId, old(familyFormData))
                   && editingFamilyMemberId.None? && familyFormData == EmptyForm)
        && (!ok ==> && familyMembers == old(familyMembers) && familyFormData == old(familyFormData)
                    && editingFamilyMemberId == old(editingFamilyMemberId))
      ensures UniqueIds(old(familyMembers)) ==> UniqueIds(familyMembers)
    {
      var found := FindMember(familyMembers, memberId);
      EditKeepsIds(familyMembers, memberId, familyFormData);
      if found.Some? && familyFormData.name != "" && familyFormData.lastName != "" {
        familyMembers := WithMemberEdit(familyMembers, memberId, familyFormData);
        editingFamilyMemberId := None;
        familyFormData := EmptyForm;
      }
    }

    /** `handleCancelFamilyMemberEdit`: the edit is dropped and the form cleared. */
    method HandleCancelFamilyMemberEdit()
      requires Valid()
      modifies this`familyFormData, this`editingFamilyMemberId
      ensures Valid() && editingFamilyMemberId.None? && familyFormData == EmptyForm
    {
      editingFamilyMemberId := None;
      familyFormData := EmptyForm;
    }

    /** `handleOpenDeleteFamilyMemberDialog`: remember whom to delete and ask for confirmation. */
    method HandleOpenDeleteDialog(memberId: string, name: string, lastName: string)
      requires Valid()
      modifies this`memberToDelete, this`deleteDialogOpen
      ensures Valid() && memberToDelete == Some(DeleteTarget(memberId, name, lastName)) && deleteDialogOpen
    {
      memberToDelete := Some(DeleteTarget(memberId, name, lastName));
      deleteDialogOpen := true;
    }

    /** `handleConfirmDeleteFamilyMember`: remove the remembered member's id and close the dialog; without one nothing changes. */
    method HandleConfirmDelete()
      requires Valid()
      modifies this`familyMembers, this`memberToDelete, this`deleteDialogOpen
      ensures Valid()
      ensures old(memberToDelete).Some? ==>
        && familyMembers == WithoutMember(old(familyMembers), old(memberToDelete).value.id)
        && memberToDelete.None? && !deleteDialogOpen
      ensures old(memberToDelete).None? ==>
        && familyMembers == old(familyMembers) && memberToDelete == old(memberToDelete)
        && deleteDialogOpen == old(deleteDialogOpen)
    {
      if memberToDelete.Some? {
        familyMembers := WithoutMember(familyMembers, memberToDelete.value.id);
        deleteDialogOpen := false;
        memberToDelete := None;
      }
    }

    /** The dialog's "No": close it and forget the member. */
    method DismissDeleteDialog()
      requires Valid()
      modifies this`memberToDelete, this`deleteDialogOpen
      ensures Valid() && memberToDelete.None? && !deleteDialogOpen
    {
      deleteDialogOpen := false;
      memberToDelete := None;
    }
  }
}
