/** The Education section: a list of education records, an editor
    dialog, the key of the record being edited (if any) and the dialog's
    draft. Each handler of the component is a method of `EducationSection`. */
module Education {
  import opened Common
  import opened RecordList

  /** Every field of an education record except its key; also the draft. */
  datatype EducationDraft = EducationDraft(degree: string, institution: string, period: string, description: string)

  type EducationItem = Entry<EducationDraft>

  const EmptyDraft := EducationDraft("", "", "", "")

  /** The records the section starts with. */
  const InitialEducations: seq<EducationItem> := [
    Entry("1", EducationDraft("Bachelor of Computer Science", "University Name", "2016 - 2020",
      "Focused on software engineering and web development. Graduated with honors."))
  ]

  class EducationSection {
    var educations: seq<EducationItem>
    var isDialogOpen: bool
    var editingId: Option<string>
    var formData: EducationDraft

    constructor ()
      ensures educations == InitialEducations && UniqueIds(educations)
      ensures !isDialogOpen && editingId == None && formData == EmptyDraft
    {
      educations := InitialEducations;
      isDialogOpen := false;
      editingId := None;
      formData := EmptyDraft;
    }

    /** "Add Education": forget any edited key, clear the draft, open the dialog. */
    method HandleAdd()
      modifies this
      ensures editingId == None && formData == EmptyDraft && isDialogOpen
      ensures educations == old(educations)
    {
      editingId := None;
      formData := EmptyDraft;
      isDialogOpen := true;
    }

    /** The edit button of record `edu`: remember its key, copy its fields
        into the draft, open the dialog. */
    method HandleEdit(edu: EducationItem)
      modifies this
      ensures editingId == Some(edu.id) && formData == edu.fields && isDialogOpen
      ensures educations == old(educations)
    {
      editingId := Some(edu.id);
      formData := edu.fields;
      isDialogOpen := true;
    }

    /** A dialog input: the draft becomes `draft` (each input replaces one
        field and keeps the others). */
    method ChangeDraft(draft: EducationDraft)
      modifies this`formData
      ensures formData == draft
    {
      formData := draft;
    }

    /** The dialog's own open/close control. */
    method OnOpenChange(open: bool)
      modifies this`isDialogOpen
      ensures isDialogOpen == open
    {
      isDialogOpen := open;
    }

    /** "Add"/"Update": with a truthy editing key every record with that key
        takes the draft's four fields (length, order and keys kept, every
        other record untouched); otherwise `{ id: freshId, ...draft }` is
        appended. The dialog closes either way; key and draft stay. */
    method HandleSave(freshId: string)
      modifies this
      ensures educations == SaveAppending(old(educations), old(editingId), old(formData), freshId)
      ensures IsTruthy(old(editingId)) ==> educations == ReplaceById(old(educations), old(editingId).value, old(formData))
      ensures !IsTruthy(old(editingId)) ==> educations == old(educations) + [Entry(freshId, old(formData))]
      ensures UniqueIds(old(educations)) && !HasId(old(educations), freshId) ==> UniqueIds(educations)
      ensures !isDialogOpen && editingId == old(editingId) && formData == old(formData)
    {
      if UniqueIds(educations) && !HasId(educations, freshId) {
        SaveKeepsUnique(educations, editingId, formData, freshId);
      }
      educations := SaveAppending(educations, editingId, formData, freshId);
      isDialogOpen := false;
    }

    /** The delete button: every record with key `id` goes, the rest keep
        their order. */
    method HandleDelete(id: string)
      modifies this`educations
      ensures educations == RemoveById(old(educations), id)
      ensures UniqueIds(old(educations)) ==> UniqueIds(educations)
    {
      if UniqueIds(educations) {
        RemoveKeepsUnique(educations, id);
      }
      educations := RemoveById(educations, id);
    }
  }
}
