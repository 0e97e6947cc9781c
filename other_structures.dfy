/**
 * The "other structures" editor of the property assessment: an index-keyed list
 * of garages, sheds and outbuildings with one shared add/edit form and a delete
 * confirmation.
 */
module OtherStructures {
  import opened Wrappers
  import opened Lists
  import opened AdditionalStructureSchema

  /** The form's initial and reset value: unnamed, a garage, not connected, no doors, no airbrick counts given. */
  function EmptyForm(): AdditionalStructure {
    AdditionalStructure("", Garage, false, 0, Some(Airbricks(None, None, None, None)))
  }

  /** The form starts out as something the schema refuses: saving checks nothing. */
  lemma EmptyFormIsNotSchemaValid()
    ensures !NameInRange(EmptyForm()) && Parse(InputOf(EmptyForm())) == None
  {
    ParseInputOf(EmptyForm());
  }

  /** A partial form update: only the given properties are replaced. */
  datatype FormUpdate = FormUpdate(
    name: Option<string>,
    structureType: Option<BuildingType>,
    isConnected: Option<bool>,
    numberOfDoors: Option<nat>)

  /** `{ ...formData, ...updates }`. */
  function Merge(f: AdditionalStructure, u: FormUpdate): (r: AdditionalStructure)
    ensures r.name == (if u.name.Some? then u.name.value else f.name)
    ensures r.structureType == (if u.structureType.Some? then u.structureType.value else f.structureType)
    ensures r.isConnected == (if u.isConnected.Some? then u.isConnected.value else f.isConnected)
    ensures r.numberOfDoors == (if u.numberOfDoors.Some? then u.numberOfDoors.value else f.numberOfDoors)
    ensures r.airbricks == f.airbricks
  {
    AdditionalStructure(
      u.name.GetOr(f.name),
      u.structureType.GetOr(f.structureType),
      u.isConnected.GetOr(f.isConnected),
      u.numberOfDoors.GetOr(f.numberOfDoors),
      f.airbricks)
  }

  /** An update naming no property leaves the form as it is, and a second identical update changes nothing more. */
  lemma MergeProperties(f: AdditionalStructure, u: FormUpdate)
    ensures Merge(f, FormUpdate(None, None, None, None)) == f
    ensures Merge(Merge(f, u), u) == Merge(f, u)
  {
  }

  class OtherStructuresView {
    var additionalStructuresList: seq<AdditionalStructure>
    var isAddingStructure: bool
    var editingIndex: Option<nat>
    var deleteDialogOpen: bool
    var structureToDelete: Option<nat>
    var formData: AdditionalStructure

    /** An edit in progress names an element of the list. */
    predicate Valid()
      reads this
    {
      editingIndex.Some? ==> editingIndex.value < |additionalStructuresList|
    }

    /** The form is on screen while adding or editing. */
    predicate FormOpen()
      reads this
    {
      isAddingStructure || editingIndex.Some?
    }

    constructor ()
      ensures Valid() && additionalStructuresList == [] && !FormOpen()
      ensures !deleteDialogOpen && structureToDelete.None? && formData == EmptyForm()
    {
      additionalStructuresList := [];
      isAddingStructure := false;
      editingIndex := None;
      deleteDialogOpen := false;
      structureToDelete := None;
      formData := EmptyForm();
    }

    method HandleStartAdding()
      requires Valid()
      modifies this`isAddingStructure, this`editingIndex, this`formData
      ensures Valid() && isAddingStructure && editingIndex.None? && formData == EmptyForm()
    {
      isAddingStructure := true;
      editingIndex := None;
      formData := EmptyForm();
    }

    /** Loads element `index` into the form; the edit buttons are rendered one per element. */
    method HandleStartEditing(index: nat)
      requires Valid() && index < |additionalStructuresList|
      modifies this`isAddingStructure, this`editingIndex, this`formData
      ensures Valid() && editingIndex == Some(index) && !isAddingStructure
      ensures formData == additionalStructuresList[index]
    {
      editingIndex := Some(index);
      isAddingStructure := false;
      formData := additionalStructuresList[index];
    }

    method HandleCancelForm()
      requires Valid()
      modifies this`isAddingStructure, this`editingIndex, this`formData
      ensures Valid() && !FormOpen() && formData == EmptyForm()
    {
      isAddingStructure := false;
      editingIndex := None;
      formData := EmptyForm();
    }

    /**
     * Saves the form without validating it: over the element being edited, or at the
     * end of the list when adding. Either way the form is reset.
     */
    method HandleSaveStructure()
      requires Valid()
      modifies this`additionalStructuresList, this`isAddingStructure, this`editingIndex, this`formData
      ensures Valid() && editingIndex.None? && formData == EmptyForm()
      ensures old(editingIndex).Some? ==>
        var k := old(editingIndex).value;
        && |additionalStructuresList| == |old(additionalStructuresList)|
        && additionalStructuresList[k] == old(formData)
        && (forall i :: 0 <= i < |additionalStructuresList| && i != k ==> additionalStructuresList[i] == old(additionalStructuresList)[i])
        && isAddingStructure == old(isAddingStructure)
      ensures old(editingIndex).None? ==>
        additionalStructuresList == old(additionalStructuresList) + [old(formData)] && !isAddingStructure
    {
      if editingIndex.Some? {
        var k := editingIndex.value;
        additionalStructuresList := additionalStructuresList[k := formData];
        editingIndex := None;
      } else {
        additionalStructuresList := additionalStructuresList + [formData];
        isAddingStructure := false;
      }
      formData := EmptyForm();
    }

    method HandleUpdateFormField(updates: FormUpdate)
      requires Valid()
      modifies this`formData
      ensures Valid() && formData == Merge(old(formData), updates)
    {
      formData := Merge(formData, updates);
    }

    method HandleOpenDeleteDialog(index: nat)
      requires Valid()
      modifies this`structureToDelete, this`deleteDialogOpen
      ensures Valid() && structureToDelete == Some(index) && deleteDialogOpen
    {
      structureToDelete := Some(index);
      deleteDialogOpen := true;
    }

    /**
     * Removes the element at the pending index, keeping the others in order. The
     * delete buttons are disabled while the form is open.
     */
    method HandleConfirmDelete()
      requires Valid() && !FormOpen()
      modifies this`additionalStructuresList, this`deleteDialogOpen, this`structureToDelete
      ensures Valid()
      ensures old(structureToDelete).None? ==>
        additionalStructuresList == old(additionalStructuresList) && deleteDialogOpen == old(deleteDialogOpen) && structureToDelete.None?
      ensures old(structureToDelete).Some? ==>
        additionalStructuresList == RemoveAt(old(additionalStructuresList), old(structureToDelete).value)
        && !deleteDialogOpen && structureToDelete.None?
    {
      if structureToDelete.Some? {
        additionalStructuresList := RemoveAt(additionalStructuresList, structureToDelete.value);
        deleteDialogOpen := false;
        structureToDelete := None;
      }
    }

    method DismissDeleteDialog()
      requires Valid()
      modifies this`deleteDialogOpen
      ensures Valid() && !deleteDialogOpen
    {
      deleteDialogOpen := false;
    }
  }

  /** Deleting an index of the list shortens it by one and keeps the other elements in order. */
  lemma DeleteKeepsOthersInOrder(xs: seq<AdditionalStructure>, k: nat)
    requires k < |xs|
    ensures |RemoveAt(xs, k)| == |xs| - 1
    ensures RemoveAt(xs, k) == xs[..k] + xs[k + 1..]
  {
    var r := RemoveAt(xs, k);
    assert |r| == |xs[..k] + xs[k + 1..]|;
    forall i | 0 <= i < |r|
      ensures r[i] == (xs[..k] + xs[k + 1..])[i]
    {
    }
  }

  /** Adding a structure and deleting the last index gives the list back. */
  lemma AddThenDeleteLast(xs: seq<AdditionalStructure>, s: AdditionalStructure)
    ensures RemoveAt(xs + [s], |xs|) == xs
  {
    DeleteKeepsOthersInOrder(xs + [s], |xs|);
    assert (xs + [s])[..|xs|] == xs;
  }
}
