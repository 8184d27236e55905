/**
 * The offer builder (`ExchangeOffer`): the user picks owned books and/or a
 * cash amount for a target listing, can add a new owned book through a
 * dialog, and submits the offer.
 */
module ExchangeOffer {
  import opened Wrappers
  import opened Seqs
  import opened Text
  import Selection
  import Catalog

  /** A book the current user owns and may offer. */
  datatype MyBook = MyBook(
    id: string,
    title: string,
    author: string,
    images: seq<string>,
    condition: int,
    genre: string,
    description: string,
    buyingDate: string,
    estimatedValue: int)

  /** The fields of the "Add Your Book" dialog. */
  datatype BookForm = BookForm(
    title: string,
    author: string,
    images: seq<string>,
    condition: int,
    genre: string,
    description: string,
    buyingDate: string,
    estimatedValue: int)

  /** The dialog's initial (and reset) contents. */
  const EmptyBookForm := BookForm("", "", [], 5, "", "", "", 0)

  datatype OfferType = MoneyOnly | BooksOnly | BooksAndMoney

  /** What is handed to the submit callback. */
  datatype Offer = Offer(
    targetBookId: string,
    offerType: OfferType,
    moneyAmount: int,
    offeredBooks: seq<MyBook>,
    message: string,
    totalValue: int)

  /** The owned books whose id is selected, in the order of the owned list. */
  function OfferedBooks(myBooks: seq<MyBook>, selected: seq<string>): (r: seq<MyBook>)
    ensures IsSubsequence(r, myBooks)
    ensures forall b :: b in r <==> b in myBooks && b.id in selected
    ensures forall b :: multiset(r)[b] == if b.id in selected then multiset(myBooks)[b] else 0
    ensures selected == [] ==> r == []
  {
    if selected == [] then
      FilterKeepsNone((b: MyBook) => b.id in selected, myBooks);
      Filter((b: MyBook) => b.id in selected, myBooks)
    else
      Filter((b: MyBook) => b.id in selected, myBooks)
  }

  /** `reduce((sum, book) => sum + book.estimatedValue, 0)`. */
  function SumValues(books: seq<MyBook>): (r: int)
    ensures (forall i :: 0 <= i < |books| ==> books[i].estimatedValue >= 0) ==>
      r >= 0 && forall i :: 0 <= i < |books| ==> books[i].estimatedValue <= r
  {
    if books == [] then 0 else SumValues(books[..|books| - 1]) + books[|books| - 1].estimatedValue
  }

  /** The "Books Value" line and the books part of the total. */
  function BooksValue(myBooks: seq<MyBook>, selected: seq<string>): int
  {
    SumValues(OfferedBooks(myBooks, selected))
  }

  /** `parseFloat(moneyOffer) || 0`. */
  function CashAmount(moneyOffer: string): (r: int)
    ensures (forall i :: 0 <= i < |moneyOffer| ==> !IsDigit(moneyOffer[i])) ==> r == 0
    ensures r < 0 ==> exists i :: 0 <= i < |moneyOffer| && moneyOffer[i] == '-'
  {
    match ParseLeadingInt(moneyOffer)
    case Some(v) => v
    case None => 0
  }

  /** `calculateTotalValue`. */
  function TotalValue(myBooks: seq<MyBook>, selected: seq<string>, moneyOffer: string): (r: int)
    ensures selected == [] ==> r == CashAmount(moneyOffer)
    ensures (forall i :: 0 <= i < |moneyOffer| ==> !IsDigit(moneyOffer[i])) ==> r == BooksValue(myBooks, selected)
  {
    BooksValue(myBooks, selected) + CashAmount(moneyOffer)
  }

  /** "Submit Offer" is disabled: nothing selected and the amount box empty. */
  function SubmitDisabled(selected: seq<string>, moneyOffer: string): (r: bool)
    ensures r ==> forall myBooks :: OfferedBooks(myBooks, selected) == [] && TotalValue(myBooks, selected, moneyOffer) == 0
  {
    |selected| == 0 && moneyOffer == ""
  }

  /** The "Offer Summary" box is shown. */
  function SummaryShown(selected: seq<string>, moneyOffer: string): (r: bool)
    ensures r <==> !SubmitDisabled(selected, moneyOffer)
  {
    |selected| > 0 || moneyOffer != ""
  }

  /** The dialog's "Add Book" button is disabled. */
  function AddBookDisabled(form: BookForm): (r: bool)
    ensures !r ==> forall id :: BookFromForm(id, form).title != "" && BookFromForm(id, form).author != "" && BookFromForm(id, form).images != []
  {
    form.title == "" || form.author == "" || |form.images| == 0
  }

  /** The owned-book entry the dialog creates from its fields and a fresh id. */
  function BookFromForm(id: string, form: BookForm): MyBook
  {
    MyBook(id, form.title, form.author, form.images, form.condition, form.genre,
      form.description, form.buyingDate, form.estimatedValue)
  }

  lemma {:induction false} SumValuesConcat(a: seq<MyBook>, b: seq<MyBook>)
    ensures SumValues(a + b) == SumValues(a) + SumValues(b)
    decreases |b|
  {
    if b == [] {
      assert a + b == a;
    } else {
      var b' := b[..|b| - 1];
      assert (a + b)[..|a + b| - 1] == a + b';
      SumValuesConcat(a, b');
    }
  }

  /** The books part only looks at selected ids that name an owned book. */
  lemma {:induction false} UnknownIdsContributeNothing(myBooks: seq<MyBook>, s1: seq<string>, s2: seq<string>)
    requires forall b :: b in myBooks ==> (b.id in s1 <==> b.id in s2)
    ensures BooksValue(myBooks, s1) == BooksValue(myBooks, s2)
    ensures OfferedBooks(myBooks, s1) == OfferedBooks(myBooks, s2)
  {
    if myBooks != [] {
      var rest := myBooks[1..];
      assert myBooks == [myBooks[0]] + rest;
      UnknownIdsContributeNothing(rest, s1, s2);
      FilterConcat((b: MyBook) => b.id in s1, [myBooks[0]], rest);
      FilterConcat((b: MyBook) => b.id in s2, [myBooks[0]], rest);
    }
  }

  /** Adding an owned book adds its value to the books part exactly when its id is selected. */
  lemma BooksValueAfterAdding(myBooks: seq<MyBook>, selected: seq<string>, added: MyBook)
    ensures BooksValue(myBooks + [added], selected)
      == BooksValue(myBooks, selected) + (if added.id in selected then added.estimatedValue else 0)
  {
    FilterConcat((b: MyBook) => b.id in selected, myBooks, [added]);
    SumValuesConcat(OfferedBooks(myBooks, selected), Filter((b: MyBook) => b.id in selected, [added]));
  }

  /** With owned values all non-negative, the books part is non-negative and at least the value of each offered book. */
  lemma BooksValueBounds(myBooks: seq<MyBook>, selected: seq<string>)
    requires forall b :: b in myBooks ==> b.estimatedValue >= 0
    ensures BooksValue(myBooks, selected) >= 0
    ensures forall b :: b in myBooks && b.id in selected ==> b.estimatedValue <= BooksValue(myBooks, selected)
  {
    var offered := OfferedBooks(myBooks, selected);
    assert forall i :: 0 <= i < |offered| ==> offered[i] in myBooks;
    forall b | b in myBooks && b.id in selected
      ensures b.estimatedValue <= BooksValue(myBooks, selected)
    {
      assert b in offered;
      var i :| 0 <= i < |offered| && offered[i] == b;
    }
  }

  /** An empty selection and an empty amount offer nothing. */
  lemma EmptyOfferIsWorthNothing(myBooks: seq<MyBook>)
    ensures TotalValue(myBooks, [], "") == 0
  {
    FilterKeepsNone((b: MyBook) => b.id in [], myBooks);
    ParseNonNumeric("");
  }

  /** A non-numeric amount such as "abc" counts as 0. */
  lemma NonNumericCashIsZero(myBooks: seq<MyBook>, selected: seq<string>, moneyOffer: string)
    requires moneyOffer == [] || !(IsWhitespace(moneyOffer[0]) || IsDigit(moneyOffer[0])
      || moneyOffer[0] == '-' || moneyOffer[0] == '+' || moneyOffer[0] == '.')
    ensures TotalValue(myBooks, selected, moneyOffer) == BooksValue(myBooks, selected)
  {
    ParseNonNumeric(moneyOffer);
  }

  /** An amount typed as the decimal digits of `n` adds exactly `n`. */
  lemma DecimalCashAddsItsValue(myBooks: seq<MyBook>, selected: seq<string>, n: nat)
    ensures TotalValue(myBooks, selected, DecimalString(n)) == BooksValue(myBooks, selected) + n
  {
    ParseDecimalString(n);
  }

  /** The amount "0" alone shows the summary and enables "Submit Offer", though it adds nothing. */
  lemma ZeroAmountEnablesSubmit()
    ensures SummaryShown([], "0") && !SubmitDisabled([], "0") && CashAmount("0") == 0
  {
    ParseDecimalString(0);
  }

  /** Two owned books worth 200 and 180, both selected, plus "20" in cash: 400. */
  lemma TwoBooksAndCashScenario()
    ensures
      var a := MyBook("a", "", "", [], 4, "", "", "", 200);
      var b := MyBook("b", "", "", [], 3, "", "", "", 180);
      TotalValue([a, b], ["a", "b"], "20") == 400
  {
    var a := MyBook("a", "", "", [], 4, "", "", "", 200);
    var b := MyBook("b", "", "", [], 3, "", "", "", 180);
    FilterPair((x: MyBook) => x.id in ["a", "b"], a, b);
    assert OfferedBooks([a, b], ["a", "b"]) == [a, b];
    assert SumValues([a, b]) == 380 by {
      assert [a, b][..1] == [a];
      assert [a][..0] == [];
      assert SumValues([a]) == SumValues([]) + 200;
      assert SumValues([a, b]) == SumValues([a]) + 180;
    }
    assert CashAmount("20") == 20 by {
      assert DecimalString(20) == "20" by {
        assert DecimalString(2) == "2";
      }
      ParseDecimalString(20);
    }
  }

  /** The reset dialog cannot be confirmed until it is filled in again. */
  lemma EmptyFormCannotBeAdded()
    ensures AddBookDisabled(EmptyBookForm)
  {
  }

  /** The offer builder's state. */
  class OfferBuilder {
    const targetBook: Catalog.Book
    var offerType: OfferType
    var moneyOffer: string
    var selectedBooks: seq<string>
    var message: string
    var showAddBookDialog: bool
    var newBook: BookForm
    var myBooks: seq<MyBook>

    constructor (targetBook: Catalog.Book, myBooks: seq<MyBook>)
      ensures this.targetBook == targetBook && this.myBooks == myBooks
      ensures offerType == BooksAndMoney && moneyOffer == "" && selectedBooks == []
      ensures message == "" && !showAddBookDialog && newBook == EmptyBookForm
    {
      this.targetBook := targetBook;
      this.myBooks := myBooks;
      offerType := BooksAndMoney;
      moneyOffer := "";
      selectedBooks := [];
      message := "";
      showAddBookDialog := false;
      newBook := EmptyBookForm;
    }

    /** Clicking an owned book's tile. */
    method ToggleBookSelection(bookId: string)
      modifies this`selectedBooks
      ensures selectedBooks == Selection.Toggle(old(selectedBooks), bookId)
    {
      selectedBooks := Selection.Toggle(selectedBooks, bookId);
    }

    /** Typing in the amount box. */
    method SetMoneyOffer(value: string)
      modifies this`moneyOffer
      ensures moneyOffer == value
    {
      moneyOffer := value;
    }

    /** Choosing money only, books only, or both. */
    method SetOfferType(t: OfferType)
      modifies this`offerType
      ensures offerType == t
    {
      offerType := t;
    }

    /** Typing in the message box. */
    method SetMessage(text: string)
      modifies this`message
      ensures message == text
    {
      message := text;
    }

    /** The "Submit Offer" button: builds the offer from the current state. */
    method SubmitOffer() returns (offer: Offer)
      requires !SubmitDisabled(selectedBooks, moneyOffer)
      ensures offer.targetBookId == targetBook.id && offer.offerType == offerType
      ensures offer.message == message
      ensures offer.moneyAmount == CashAmount(moneyOffer)
      ensures IsSubsequence(offer.offeredBooks, myBooks)
      ensures forall b :: b in offer.offeredBooks <==> b in myBooks && b.id in selectedBooks
      ensures offer.offeredBooks == OfferedBooks(myBooks, selectedBooks)
      ensures offer.totalValue == SumValues(offer.offeredBooks) + offer.moneyAmount
      ensures offer.totalValue == TotalValue(myBooks, selectedBooks, moneyOffer)
    {
      var offered := OfferedBooks(myBooks, selectedBooks);
      offer := Offer(targetBook.id, offerType, CashAmount(moneyOffer), offered, message,
        TotalValue(myBooks, selectedBooks, moneyOffer));
    }

    /** Either "Add Book" button above the owned books. */
    method OpenAddBookDialog()
      modifies this`showAddBookDialog
      ensures showAddBookDialog
    {
      showAddBookDialog := true;
    }

    /** The dialog's "Cancel": closes it and keeps what was typed. */
    method CancelAddBook()
      modifies this`showAddBookDialog
      ensures !showAddBookDialog
    {
      showAddBookDialog := false;
    }

    /** Typing the new book's title. */
    method SetTitle(title: string)
      modifies this`newBook
      ensures newBook == old(newBook).(title := title)
    {
      newBook := newBook.(title := title);
    }

    /** Typing the new book's author. */
    method SetAuthor(author: string)
      modifies this`newBook
      ensures newBook == old(newBook).(author := author)
    {
      newBook := newBook.(author := author);
    }

    /** Choosing photos; `urls` are the preview URLs, `None` when no file list came back. */
    method UploadImages(urls: Option<seq<string>>)
      modifies this`newBook
      ensures urls.None? ==> newBook == old(newBook)
      ensures urls.Some? ==> newBook == old(newBook).(images := old(newBook).images + urls.value)
    {
      if urls.Some? {
        newBook := newBook.(images := newBook.images + urls.value);
      }
    }

    /** The cross on the photo at `index`. */
    method RemoveImage(index: int)
      modifies this`newBook
      ensures newBook == old(newBook).(images := WithoutIndex(old(newBook).images, index))
    {
      newBook := newBook.(images := WithoutIndex(newBook.images, index));
    }

    /** The dialog's "Add Book": appends the new entry, closes and resets the dialog. */
    method ConfirmAddBook(freshId: string)
      requires !AddBookDisabled(newBook)
      modifies this`myBooks, this`showAddBookDialog, this`newBook
      ensures myBooks == old(myBooks) + [BookFromForm(freshId, old(newBook))]
      ensures !showAddBookDialog && newBook == EmptyBookForm
    {
      myBooks := myBooks + [BookFromForm(freshId, newBook)];
      showAddBookDialog := false;
      newBook := EmptyBookForm;
    }
  }
}
