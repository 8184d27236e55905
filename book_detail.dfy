/**
 * The book page (`BookDetail`): the exchange-request dialog, in which the
 * user picks some of their own books and writes a message, and the star
 * rows for the book's condition and its owner's rating.
 */
module BookDetail {
  import opened Selection
  import opened Stars

  /** "Send Request" is disabled while no book is picked. */
  function SendDisabled(selectedBooks: seq<string>): (r: bool)
    ensures r <==> forall id :: id !in selectedBooks
  {
    assert |selectedBooks| > 0 ==> selectedBooks[0] in selectedBooks;
    |selectedBooks| == 0
  }

  /** After a click on a book the request can be sent unless that click took away the last picked book. */
  lemma SendDisabledAfterToggle(selectedBooks: seq<string>, id: string)
    ensures SendDisabled(Toggle(selectedBooks, id)) <==>
      id in selectedBooks && forall k :: 0 <= k < |selectedBooks| ==> selectedBooks[k] == id
  {
    var r := Toggle(selectedBooks, id);
    if id in selectedBooks && exists k :: 0 <= k < |selectedBooks| && selectedBooks[k] != id {
      var k :| 0 <= k < |selectedBooks| && selectedBooks[k] != id;
      assert selectedBooks[k] in r;
    }
    if id !in selectedBooks {
      assert id in r;
    }
  }

  /** The stars next to the owner's name: `Math.floor(rating)` of five are filled. */
  function OwnerRatingStars(rating: real): (r: seq<bool>)
    ensures |r| == SlotCount
    ensures CountFilled(r) == Clamp(rating.Floor, 0, SlotCount)
  {
    FilledStarsIsClampedCondition(rating.Floor);
    StarSlots(rating.Floor)
  }

  /** The state of the exchange-request dialog. */
  class ExchangeRequest {
    var exchangeDialogOpen: bool
    var selectedBooks: seq<string>
    var message: string

    /** The page opens with the dialog closed, nothing picked and no message. */
    constructor ()
      ensures !exchangeDialogOpen && selectedBooks == [] && message == ""
    {
      exchangeDialogOpen := false;
      selectedBooks := [];
      message := "";
    }

    /** "Request Exchange". */
    method OpenDialog()
      modifies this`exchangeDialogOpen
      ensures exchangeDialogOpen
    {
      exchangeDialogOpen := true;
    }

    /** "Cancel", or the dialog dismissing itself: the picks and the message stay. */
    method SetDialogOpen(open: bool)
      modifies this`exchangeDialogOpen
      ensures exchangeDialogOpen == open
    {
      exchangeDialogOpen := open;
    }

    /** Clicking one of the user's books in the dialog. */
    method ToggleBookSelection(bookId: string)
      modifies this`selectedBooks
      ensures selectedBooks == Toggle(old(selectedBooks), bookId)
      ensures bookId in selectedBooks <==> bookId !in old(selectedBooks)
      ensures NoDuplicates(old(selectedBooks)) ==> NoDuplicates(selectedBooks)
    {
      if NoDuplicates(selectedBooks) {
        ToggleKeepsNoDuplicates(selectedBooks, bookId);
      }
      selectedBooks := Toggle(selectedBooks, bookId);
    }

    /** Typing in the message box. */
    method SetMessage(text: string)
      modifies this`message
      ensures message == text
    {
      message := text;
    }

    /** `handleExchangeRequest`: closes the dialog; the picks and the message are kept. */
    method HandleExchangeRequest()
      requires !SendDisabled(selectedBooks)
      modifies this`exchangeDialogOpen
      ensures !exchangeDialogOpen
    {
      exchangeDialogOpen := false;
    }
  }
}
