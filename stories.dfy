/** The Stories section: a list of stories, newest first, with the same
    dialog, editing key and draft as the other record sections. New stories
    go in front, and "Add Story" pre-fills the draft's date with today's. */
module Stories {
  import opened Common
  import opened RecordList

  /** Every field of a story except its key; also the draft. */
  datatype StoryDraft = StoryDraft(title: string, date: string, category: string, content: string)

  type Story = Entry<StoryDraft>

  const EmptyDraft := StoryDraft("", "", "", "")

  /** The stories the section starts with. */
  const InitialStories: seq<Story> := [
    Entry("1", StoryDraft("My Journey into Web Development", "2024-01-15", "Career",
      "It all started when I built my first website. The excitement of seeing my code come to life on the screen was indescribable. From that moment, I knew I wanted to pursue a career in web development...")),
    Entry("2", StoryDraft("Lessons Learned from My First Big Project", "2024-02-20", "Learning",
      "Working on my first major project taught me invaluable lessons about planning, communication, and perseverance. Here are some key takeaways that shaped my approach to development..."))
  ]

  class StoriesSection {
    var stories: seq<Story>
    var isDialogOpen: bool
    var editingId: Option<string>
    var formData: StoryDraft

    constructor ()
      ensures stories == InitialStories && UniqueIds(stories)
      ensures !isDialogOpen && editingId == None && formData == EmptyDraft
    {
      stories := InitialStories;
      isDialogOpen := false;
      editingId := None;
      formData := EmptyDraft;
    }

    /** "Add Story": forget any edited key, empty the title, category and
        content, set the date to `today` (the clock's `YYYY-MM-DD` date,
        passed in), open the dialog. */
    method HandleAdd(today: string)
      modifies this
      ensures editingId == None && formData == StoryDraft("", today, "", "") && isDialogOpen
      ensures stories == old(stories)
    {
      editingId := None;
      formData := StoryDraft("", today, "", "");
      isDialogOpen := true;
    }

    /** The edit button of `story`: remember its key, copy its four fields
        into the draft, open the dialog. */
    method HandleEdit(story: Story)
      modifies this
      ensures editingId == Some(story.id) && formData == story.fields && isDialogOpen
      ensures stories == old(stories)
    {
      editingId := Some(story.id);
      formData := story.fields;
      isDialogOpen := true;
    }

    /** A dialog input: the draft becomes `draft`. */
    method ChangeDraft(draft: StoryDraft)
      modifies this`formData
      ensures formData == draft
    {
      formData := draft;
    }

    /** The dialog's own open/close control. */
    method OnOpenChange(open: bool)
      modifies this`isDialogOpen
      ensures isDialogOpen == open
    {
      isDialogOpen := open;
    }

    /** "Publish"/"Update": with a truthy editing key every story with that
        key takes the draft; otherwise `{ id: freshId, ...draft }` becomes
        the first story and the old list follows unchanged. The dialog
        closes either way. */
    method HandleSave(freshId: string)
      modifies this
      ensures stories == SavePrepending(old(stories), old(editingId), old(formData), freshId)
      ensures IsTruthy(old(editingId)) ==> stories == ReplaceById(old(stories), old(editingId).value, old(formData))
      ensures !IsTruthy(old(editingId)) ==> stories == [Entry(freshId, old(formData))] + old(stories)
      ensures UniqueIds(old(stories)) && !HasId(old(stories), freshId) ==> UniqueIds(stories)
      ensures !isDialogOpen && editingId == old(editingId) && formData == old(formData)
    {
      if UniqueIds(stories) && !HasId(stories, freshId) {
        SaveKeepsUnique(stories, editingId, formData, freshId);
      }
      stories := SavePrepending(stories, editingId, formData, freshId);
      isDialogOpen := false;
    }

    /** The delete button: every story with key `id` goes, the rest keep
        their order. */
    method HandleDelete(id: string)
      modifies this`stories
      ensures stories == RemoveById(old(stories), id)
      ensures UniqueIds(old(stories)) ==> UniqueIds(stories)
    {
      if UniqueIds(stories) {
        RemoveKeepsUnique(stories, id);
      }
      stories := RemoveById(stories, id);
    }
  }

  /** Adding story C to the list [A, B] gives [C, A, B]. */
  lemma NewestFirst(a: Story, b: Story, c: StoryDraft, freshId: string)
    ensures SavePrepending([a, b], None, c, freshId) == [Entry(freshId, c), a, b]
  {
  }
}
