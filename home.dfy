/**
 * The home page (`Home`): the mobile menu and the "Add Book" dialog with
 * its photo list.
 */
module Home {
  import opened Wrappers
  import opened Seqs

  /** What the "Add Book" dialog holds while the user fills it in. */
  datatype ListingForm = ListingForm(
    title: string,
    author: string,
    images: seq<string>,
    askingBooks: string,
    askingPrice: string,
    condition: string,
    purchaseDate: string,
    boughtFromRokomari: bool)

  /** The dialog's defaults, both initially and after every reset. */
  const EmptyListingForm := ListingForm("", "", [], "", "", "Very Good", "", false)

  /** The dialog's "Add Book" button is disabled: a title, an author or a photo is missing. */
  function AddBookDisabled(form: ListingForm): (r: bool)
    ensures !r <==> (form.title != EmptyListingForm.title && form.author != EmptyListingForm.author
      && form.images != EmptyListingForm.images)
  {
    form.title == "" || form.author == "" || |form.images| == 0
  }

  /** A reset form cannot be submitted until something is typed and a photo chosen. */
  lemma EmptyFormCannotBeAdded()
    ensures AddBookDisabled(EmptyListingForm)
  {
  }

  /** Uploading photos to a form with a title and an author enables "Add Book" iff at least one photo is there afterwards. */
  lemma UploadEnablesAdd(form: ListingForm, urls: seq<string>)
    requires form.title != "" && form.author != ""
    ensures !AddBookDisabled(form.(images := form.images + urls)) <==> |form.images| + |urls| > 0
  {
  }

  /** Removing the photo just uploaded gives back the earlier list. */
  lemma RemoveLastUploadRestores(images: seq<string>, url: string)
    ensures WithoutIndex(images + [url], |images|) == images
  {
    assert (images + [url])[..|images|] == images;
  }

  /** Removing a photo leaves every other photo, in order, and no more. */
  lemma RemoveImageShiftsLater(images: seq<string>, index: int, k: int)
    requires 0 <= index < |images| && 0 <= k < |images| - 1
    ensures WithoutIndex(images, index)[k] == if k < index then images[k] else images[k + 1]
  {
  }

  /** The home page's state. */
  class HomePage {
    var isMobileMenuOpen: bool
    var showAddBookDialog: bool
    var newBook: ListingForm

    constructor ()
      ensures !isMobileMenuOpen && !showAddBookDialog && newBook == EmptyListingForm
    {
      isMobileMenuOpen := false;
      showAddBookDialog := false;
      newBook := EmptyListingForm;
    }

    /** The menu button on narrow screens. */
    method ToggleMobileMenu()
      modifies this`isMobileMenuOpen
      ensures isMobileMenuOpen == !old(isMobileMenuOpen)
    {
      isMobileMenuOpen := !isMobileMenuOpen;
    }

    /** Either "Add Book" button in the navigation, or the dialog's own open/close signal. */
    method SetAddBookDialog(open: bool)
      modifies this`showAddBookDialog
      ensures showAddBookDialog == open
    {
      showAddBookDialog := open;
    }

    /** Typing the title. */
    method SetTitle(title: string)
      modifies this`newBook
      ensures newBook == old(newBook).(title := title)
    {
      newBook := newBook.(title := title);
    }

    /** Typing the author. */
    method SetAuthor(author: string)
      modifies this`newBook
      ensures newBook == old(newBook).(author := author)
    {
      newBook := newBook.(author := author);
    }

    /** Picking a condition from the drop-down. */
    method SetCondition(condition: string)
      modifies this`newBook
      ensures newBook == old(newBook).(condition := condition)
    {
      newBook := newBook.(condition := condition);
    }

    /**
     * `handleImageUpload`; `urls` are the preview URLs made for the chosen
     * files, `None` when the input reports no file list.
     */
    method UploadImages(urls: Option<seq<string>>)
      modifies this`newBook
      ensures urls.None? ==> newBook == old(newBook)
      ensures urls.Some? ==> newBook == old(newBook).(images := old(newBook).images + urls.value)
      ensures old(newBook).images <= newBook.images
      ensures |newBook.images| == |old(newBook).images| + (if urls.Some? then |urls.value| else 0)
    {
      if urls.Some? {
        newBook := newBook.(images := newBook.images + urls.value);
      }
    }

    /** `removeImage`: the cross on the photo at `index`. */
    method RemoveImage(index: int)
      modifies this`newBook
      ensures newBook == old(newBook).(images := WithoutIndex(old(newBook).images, index))
      ensures 0 <= index < |old(newBook).images| ==> |newBook.images| == |old(newBook).images| - 1
    {
      newBook := newBook.(images := WithoutIndex(newBook.images, index));
    }

    /** `handleAddBook`: resets the form and closes the dialog. */
    method AddBook()
      requires !AddBookDisabled(newBook)
      modifies this`newBook, this`showAddBookDialog
      ensures newBook == EmptyListingForm && !showAddBookDialog
    {
      newBook := EmptyListingForm;
      showAddBookDialog := false;
    }

    /** The dialog's "Cancel": closes it and resets the form. */
    method CancelAddBook()
      modifies this`newBook, this`showAddBookDialog
      ensures newBook == EmptyListingForm && !showAddBookDialog
    {
      showAddBookDialog := false;
      newBook := EmptyListingForm;
    }
  }
}
