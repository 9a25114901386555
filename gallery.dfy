/** The Gallery section: a list of images that can only be added and
    deleted (there is no edit), an add dialog with its draft, the image open
    in the preview dialog, and the image element that falls back to a
    placeholder once loading fails. */
module Gallery {
  import opened Common
  import opened RecordList

  /** Every field of a gallery item except its key; also the draft. */
  datatype GalleryDraft = GalleryDraft(title: string, imageUrl: string, description: string)

  type GalleryItem = Entry<GalleryDraft>

  const EmptyDraft := GalleryDraft("", "", "")

  /** The items the gallery starts with. */
  const InitialItems: seq<GalleryItem> := [
    Entry("1", GalleryDraft("Project Screenshot",
      "https://images.unsplash.com/photo-1498050108023-c5249f4df085?w=800", "A beautiful web application")),
    Entry("2", GalleryDraft("Design Mockup",
      "https://images.unsplash.com/photo-1507238691740-187a5b1d37b8?w=800", "UI/UX design work")),
    Entry("3", GalleryDraft("Code Editor",
      "https://images.unsplash.com/photo-1461749280684-dccba630e2f6?w=800", "Clean and organized code"))
  ]

  /** The empty-state card is rendered exactly when there are no items. */
  predicate ShowsEmptyState(items: seq<GalleryItem>)
  {
    |items| == 0
  }

  class GallerySection {
    var items: seq<GalleryItem>
    var isDialogOpen: bool
    var selectedImage: Option<GalleryItem>
    var formData: GalleryDraft

    constructor ()
      ensures items == InitialItems && UniqueIds(items) && !ShowsEmptyState(items)
      ensures !isDialogOpen && selectedImage == None && formData == EmptyDraft
      ensures !PreviewOpen()
    {
      items := InitialItems;
      isDialogOpen := false;
      selectedImage := None;
      formData := EmptyDraft;
    }

    /** "Add Image": clear the three draft fields and open the dialog. */
    method HandleAdd()
      modifies this
      ensures formData == EmptyDraft && isDialogOpen
      ensures items == old(items) && selectedImage == old(selectedImage)
    {
      formData := EmptyDraft;
      isDialogOpen := true;
    }

    /** A dialog input: the draft becomes `draft`. */
    method ChangeDraft(draft: GalleryDraft)
      modifies this`formData
      ensures formData == draft
    {
      formData := draft;
    }

    /** The add dialog's own open/close control. */
    method OnOpenChange(open: bool)
      modifies this`isDialogOpen
      ensures isDialogOpen == open
    {
      isDialogOpen := open;
    }

    /** "Add to Gallery": always appends `{ id: freshId, ...draft }`, empty
        fields included, and closes the dialog. */
    method HandleSave(freshId: string)
      modifies this
      ensures items == old(items) + [Entry(freshId, old(formData))]
      ensures !HasId(old(items), freshId) ==> Lookup(items, freshId) == Some(Entry(freshId, old(formData)))
      ensures UniqueIds(old(items)) && !HasId(old(items), freshId) ==> UniqueIds(items)
      ensures !ShowsEmptyState(items)
      ensures !isDialogOpen && formData == old(formData) && selectedImage == old(selectedImage)
    {
      if !HasId(items, freshId) {
        AppendedIsFound(items, freshId, formData);
        if UniqueIds(items) {
          SaveKeepsUnique(items, None, formData, freshId);
        }
      }
      items := items + [Entry(freshId, formData)];
      isDialogOpen := false;
    }

    /** The delete button of a card: every item with key `id` goes, the
        rest keep their order. */
    method HandleDelete(id: string)
      modifies this`items
      ensures items == RemoveById(old(items), id)
      ensures UniqueIds(old(items)) ==> UniqueIds(items)
    {
      if UniqueIds(items) {
        RemoveKeepsUnique(items, id);
      }
      items := RemoveById(items, id);
    }

    /** "View": open `item` in the preview dialog. */
    method ViewImage(item: GalleryItem)
      modifies this`selectedImage
      ensures selectedImage == Some(item) && PreviewOpen()
    {
      selectedImage := Some(item);
    }

    /** Any open/close event of the preview dialog clears the selection. */
    method ClosePreview()
      modifies this`selectedImage
      ensures selectedImage == None && !PreviewOpen()
    {
      selectedImage := None;
    }

    /** The preview dialog is rendered while an image is selected. */
    predicate PreviewOpen()
      reads this
    {
      selectedImage.Some?
    }
  }

  /** Deleting the key that every item carries brings up the empty state;
      deleting any other key from a non-empty gallery does not. */
  lemma EmptyStateAfterDelete(items: seq<GalleryItem>, id: string)
    ensures ShowsEmptyState(RemoveById(items, id)) <==> forall i :: 0 <= i < |items| ==> items[i].id == id
  {
    var r := RemoveById(items, id);
    RemoveByIdMembers(items, id);
    if !forall i :: 0 <= i < |items| ==> items[i].id == id {
      var i :| 0 <= i < |items| && items[i].id != id;
      assert items[i] in items;
    }
  }

  // ---------------------------------------------------------------------
  // The image element with a fallback

  /** The placeholder shown after a load error. */
  const ErrorImgSrc: string := "data:image/svg+xml;base64,PHN2ZyB3aWR0aD0iODgiIGhlaWdodD0iODgiIHhtbG5zPSJodHRwOi8vd3d3LnczLm9yZy8yMDAwL3N2ZyIgc3Ryb2tlPSIjMDAwIiBzdHJva2UtbGluZWpvaW49InJvdW5kIiBvcGFjaXR5PSIuMyIgZmlsbD0ibm9uZSIgc3Ryb2tlLXdpZHRoPSIzLjciPjxyZWN0IHg9IjE2IiB5PSIxNiIgd2lkdGg9IjU2IiBoZWlnaHQ9IjU2IiByeD0iNiIvPjxwYXRoIGQ9Im0xNiA1OCAxNi0xOCAzMiAzMiIvPjxjaXJjbGUgY3g9IjUzIiBjeT0iMzUiIHI9IjciLz48L3N2Zz4KCg=="

  const ErrorImgAlt: string := "Error loading image"

  /** What the element renders: the image itself, or the placeholder with
      the original source kept as its `data-original-url`. */
  datatype ImageView =
    | Original(src: string, alt: string)
    | Fallback(src: string, alt: string, originalUrl: string)

  class ImageWithFallback {
    const src: string
    const alt: string
    var errored: bool

    constructor (src: string, alt: string)
      ensures this.src == src && this.alt == alt && !errored
    {
      this.src := src;
      this.alt := alt;
      errored := false;
    }

    /** The image's `onError` event. Nothing sets the flag back. */
    method OnError()
      modifies this`errored
      ensures errored
    {
      errored := true;
    }

    /** Before an error the element shows its own source; after one it shows
        the placeholder and keeps the source as the original URL. */
    function Rendered(): (v: ImageView)
      reads this
      ensures !errored ==> v.Original? && v.src == src && v.alt == alt
      ensures errored ==> v.Fallback? && v.src == ErrorImgSrc && v.alt == ErrorImgAlt && v.originalUrl == src
    {
      if errored then Fallback(ErrorImgSrc, ErrorImgAlt, src) else Original(src, alt)
    }
  }
}
