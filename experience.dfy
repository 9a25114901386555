/** The Work Experience section: a list of experience records, an editor
    dialog, the key of the record being edited (if any) and the dialog's
    draft. Each handler of the component is a method of `ExperienceSection`. */
module Experience {
  import opened Common
  import opened RecordList

  /** Every field of an experience record except its key; also the draft. */
  datatype ExperienceDraft = ExperienceDraft(title: string, company: string, period: string, description: string)

  type ExperienceItem = Entry<ExperienceDraft>

  const EmptyDraft := ExperienceDraft("", "", "", "")

  /** The records the section starts with. */
  const InitialExperiences: seq<ExperienceItem> := [
    Entry("1", ExperienceDraft("Senior Developer", "Tech Company", "2022 - Present",
      "Leading development of web applications and mentoring junior developers.")),
    Entry("2", ExperienceDraft("Full Stack Developer", "Startup Inc", "2020 - 2022",
      "Built and maintained multiple client projects using modern web technologies."))
  ]

  class ExperienceSection {
    var experiences: seq<ExperienceItem>
    var isDialogOpen: bool
    var editingId: Option<string>
    var formData: ExperienceDraft

    constructor ()
      ensures experiences == InitialExperiences && UniqueIds(experiences)
      ensures !isDialogOpen && editingId == None && formData == EmptyDraft
    {
      experiences := InitialExperiences;
      isDialogOpen := false;
      editingId := None;
      formData := EmptyDraft;
    }

    /** "Add Experience": forget any edited key, clear the draft, open the dialog. */
    method HandleAdd()
      modifies this
      ensures editingId == None && formData == EmptyDraft && isDialogOpen
      ensures experiences == old(experiences)
    {
      editingId := None;
      formData := EmptyDraft;
      isDialogOpen := true;
    }

    /** The edit button of record `exp`: remember its key, copy its fields
        into the draft, open the dialog. */
    method HandleEdit(exp: ExperienceItem)
      modifies this
      ensures editingId == Some(exp.id) && formData == exp.fields && isDialogOpen
      ensures experiences == old(experiences)
    {
      editingId := Some(exp.id);
      formData := exp.fields;
      isDialogOpen := true;
    }

    /** A dialog input: the draft becomes `draft` (each input replaces one
        field and keeps the others). */
    method ChangeDraft(draft: ExperienceDraft)
      modifies this`formData
      ensures formData == draft
    {
      formData := draft;
    }

    /** The dialog's own open/close control. */
    method OnOpenChange(open: bool)
      modifies this`isDialogOpen
      ensures isDialogOpen == open
    {
      isDialogOpen := open;
    }

    /** "Add"/"Update": with a truthy editing key every record with that key
        takes the draft's four fields (length, order and keys kept, every
        other record untouched); otherwise `{ id: freshId, ...draft }` is
        appended. The dialog closes either way; key and draft stay. */
    method HandleSave(freshId: string)
      modifies this
      ensures experiences == SaveAppending(old(experiences), old(editingId), old(formData), freshId)
      ensures IsTruthy(old(editingId)) ==> experiences == ReplaceById(old(experiences), old(editingId).value, old(formData))
      ensures !IsTruthy(old(editingId)) ==> experiences == old(experiences) + [Entry(freshId, old(formData))]
      ensures UniqueIds(old(experiences)) && !HasId(old(experiences), freshId) ==> UniqueIds(experiences)
      ensures !isDialogOpen && editingId == old(editingId) && formData == old(formData)
    {
      if UniqueIds(experiences) && !HasId(experiences, freshId) {
        SaveKeepsUnique(experiences, editingId, formData, freshId);
      }
      experiences := SaveAppending(experiences, editingId, formData, freshId);
      isDialogOpen := false;
    }

    /** The delete button: every record with key `id` goes, the rest keep
        their order. */
    method HandleDelete(id: string)
      modifies this`experiences
      ensures experiences == RemoveById(old(experiences), id)
      ensures UniqueIds(old(experiences)) ==> UniqueIds(experiences)
    {
      if UniqueIds(experiences) {
        RemoveKeepsUnique(experiences, id);
      }
      experiences := RemoveById(experiences, id);
    }
  }
}
