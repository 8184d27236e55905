# Book-Swap, modelled in Dafny

Book-Swap is a single-page prototype of a second-hand book exchange.
Users browse a catalogue of listings and filter it. They open a listing's
card or detail page and put together an offer: some of their own books,
some cash, or both. They add books of their own and message other users.
This project models the logic behind those screens and proves properties
about it. The markup is not modelled.

- `Catalog` (`BookGrid`): the filter over the listings. It combines a
  case-insensitive title/author search, a genre, a condition and a
  category tab.
- `ExchangeOffer`: the selection of owned books, the total value, submitting
  the offer, and the "Add Your Book" dialog with its photo list. State
  changes go through the `OfferBuilder` class; derived values are functions.
- `Messages`: conversation search, the thread filter, `formatTime`'s choice
  of label, and sending a message. Sending goes through the `Inbox` class.
- `BookCard`: the image carousel (the `Carousel` class), the card style, the
  button label, the "Wants in exchange" preview.
- `BookDetail`: the exchange-request dialog (the `ExchangeRequest` class) and
  the owner-rating stars.
- `Home`: the mobile menu and the "Add Book" dialog (the `HomePage` class).
- Shared modules:
  - `Seqs`: order-preserving `filter` and index removal.
  - `Selection`: the toggle-a-selected-id rule that two screens repeat.
  - `Stars`: the five-star condition row.
  - `Text`: the string built-ins the components call: `toLowerCase`,
    `includes`, `trim`, number printing and the integer part of
    `parseFloat`.

Each React event handler is one atomic transition of a class's fields. A
value that the browser or clock supplies is a parameter of the handler:
preview URLs, a fresh id, the current time. `handleSendMessage` reads the
clock twice (src/components/Messages.tsx:141 and 154); the model passes one
`now` for both the message's timestamp and the conversation's
`lastMessageTime`.

## Model

| member | source | states |
|---|---|---|
| Seqs.Filter | src/components/BookGrid.tsx:56-117 | `Array.prototype.filter`: the result is a subsequence of the input. It holds exactly the elements satisfying the predicate, each as often as in the input. |
| Seqs.FilterIdempotent | src/components/BookGrid.tsx:56-117 | Filtering twice with the same predicate is filtering once. |
| Seqs.WithoutIndex | src/components/home.tsx:58-63 | `filter((_, i) => i !== index)`: an index in range drops exactly that element and keeps the rest in order. An index out of range changes nothing. |
| Text.Lower | src/components/BookGrid.tsx:58-60 | `toLowerCase` keeps the length and lower-cases each character. |
| Text.LowerOfUpper | src/components/BookGrid.tsx:58-60 | Lower-casing an upper-cased string gives the same result as lower-casing the original. |
| Text.Contains | src/components/BookGrid.tsx:58-60 | `includes` is true iff the needle occurs at some position of the haystack. |
| Text.TrimEmptyIffBlank | src/components/Messages.tsx:127 | `trim()` is empty iff every character is white space. |
| Text.Trim | src/components/Messages.tsx:127 | `trim()` gives a stretch of the input with only white space cut from either end, and it starts and ends on a non-blank. |
| Text.DecimalString | src/components/Messages.tsx:137 | Printing a natural number gives a non-empty digit string that denotes that number, with no leading zero. |
| Text.ParseDecimalString | src/components/ExchangeOffer.tsx:174 | `parseFloat` of a printed natural number gives that number back. |
| Text.ParseNonNumeric | src/components/ExchangeOffer.tsx:174 | A string that is empty, or starts with neither white space, a sign, a digit nor '.', parses to NaN (`None`), as `parseFloat` does ("Infinity" apart, which is not modelled). |
| Text.ParseBareFraction | src/components/ExchangeOffer.tsx:174 | A fraction without a leading zero such as ".5" has integer part 0 (`Some(0)`), not NaN. |
| Text.ParseLeadingInt | src/components/ExchangeOffer.tsx:174 | The integer part of `parseFloat`: it is a number only if the text holds a digit, and negative only if the text holds a '-'. |
| Selection.Toggle | src/components/ExchangeOffer.tsx:162-168 | A present id is removed, every occurrence of it. An absent id is appended. Either way its membership flips. No other id changes membership or count, and the order is kept. |
| Selection.ToggleTwiceRestores | src/components/BookDetail.tsx:93-99 | Clicking an unselected book twice restores the selection list exactly. |
| Selection.ToggleKeepsNoDuplicates | src/components/BookDetail.tsx:93-99 | Toggling keeps a duplicate-free selection duplicate-free. |
| Selection.ClicksFromEmptyNeverDuplicate | src/components/ExchangeOffer.tsx:95 | Any sequence of clicks starting from the empty selection leaves no id selected twice. |
| Stars.FilledStarsIsClampedCondition | src/components/BookCard.tsx:73-82 | Of the 5 slots, slot `k` is filled iff `k < condition`, so `clamp(condition, 0, 5)` slots are filled. The same star row is at ExchangeOffer.tsx:151-160 and BookDetail.tsx:108-117. |
| Catalog.FilteredBooks | src/components/BookGrid.tsx:56-117 | The listed books are the catalogue's books that pass all four filters, in catalogue order, each as often as in the catalogue. |
| Catalog.SearchIgnoresCase | src/components/BookGrid.tsx:58-60 | Upper-casing the search term, or a book's title and author, does not change whether the book matches. |
| Catalog.EmptySearchMatchesAll | src/components/BookGrid.tsx:58-60 | The empty search term matches every book. |
| Catalog.ConditionDigitMatchesExactly | src/components/BookGrid.tsx:67-71 | A condition value "1" to "5" passes exactly the books whose numeric condition is that digit. |
| Catalog.ConditionOptionsMatchNothing | src/components/BookGrid.tsx:238-244 | Each named value the condition drop-down offers ("New" … "Poor") empties the list, because only the digits "1"–"5" are compared. |
| Catalog.OtherTabsMatchNothing | src/components/BookGrid.tsx:258-261 | A tab other than "all", "fiction" and "nonfiction", such as "recent", empties the list. |
| Catalog.InitialFiltersShowAll | src/components/BookGrid.tsx:39-42 | In the initial state ("", "all", "all", "all") the whole catalogue is listed, unchanged. |
| Catalog.FilteringIsIdempotent | src/components/BookGrid.tsx:56-117 | Filtering the filtered list again changes nothing. |
| Catalog.CategoriesAreDisjoint | src/components/BookGrid.tsx:74-114 | The fiction and non-fiction genre tables share no genre, so no book is under both tabs. |
| Catalog.SearchScenario | src/components/BookGrid.tsx:329-337 | Searching "dune" over Dune and an invented George Orwell listing lists Dune alone. |
| Catalog.ConditionScenario | src/components/BookGrid.tsx:67-71 | Condition "5" over Dune (4) and the invented condition-5 listing lists only the latter. |
| ExchangeOffer.OfferedBooks | src/components/ExchangeOffer.tsx:183 | The offered books are the owned books whose id is selected, in owned-list order, each as often as it is owned. |
| ExchangeOffer.SumValues | src/components/ExchangeOffer.tsx:172-173 | The `reduce` over non-negative estimated values is non-negative and at least each book's value. |
| ExchangeOffer.CashAmount | src/components/ExchangeOffer.tsx:174 | `parseFloat(moneyOffer) or 0`: an amount without a digit counts 0, and a negative amount needs a '-'. |
| ExchangeOffer.TotalValue | src/components/ExchangeOffer.tsx:170-176 | `calculateTotalValue`: with nothing selected the total is the cash amount, and with a digit-free amount it is the books value. |
| ExchangeOffer.SubmitDisabled | src/components/ExchangeOffer.tsx:497 | When "Submit Offer" is disabled, the offer would hold no book and be worth 0, whatever books are owned. |
| ExchangeOffer.SummaryShown | src/components/ExchangeOffer.tsx:448 | The summary box is shown iff "Submit Offer" (line 497) is enabled. |
| ExchangeOffer.AddBookDisabled | src/components/ExchangeOffer.tsx:692-694 | When "Add Book" is enabled, the book it would add, under any id, has a title, an author and a photo. |
| ExchangeOffer.UnknownIdsContributeNothing | src/components/ExchangeOffer.tsx:170-176 | Selected ids that name no owned book change neither the offered books nor the books value. |
| ExchangeOffer.BooksValueAfterAdding | src/components/ExchangeOffer.tsx:170-176 | Adding an owned book raises the books value by its estimated value if its id is selected, and by nothing otherwise. |
| ExchangeOffer.BooksValueBounds | src/components/ExchangeOffer.tsx:170-176 | With non-negative estimated values, the books value is non-negative and at least the value of each owned book whose id is selected. |
| ExchangeOffer.EmptyOfferIsWorthNothing | src/components/ExchangeOffer.tsx:170-176 | No selection and an empty amount give a total of 0. |
| ExchangeOffer.NonNumericCashIsZero | src/components/ExchangeOffer.tsx:174 | An amount that is NaN to `parseFloat` ("Infinity" apart, which is not modelled: empty, or starting with neither white space, a sign, a digit nor '.') adds 0 to the total: the `or 0` fallback. |
| ExchangeOffer.DecimalCashAddsItsValue | src/components/ExchangeOffer.tsx:174 | An amount typed as the digits of `n` adds exactly `n` to the total. |
| ExchangeOffer.ZeroAmountEnablesSubmit | src/components/ExchangeOffer.tsx:448 | The amount "0" alone shows the summary and enables "Submit Offer", though it adds 0. |
| ExchangeOffer.TwoBooksAndCashScenario | src/components/ExchangeOffer.tsx:170-176 | Two selected books worth 200 and 180 plus "20" in cash total 400. |
| ExchangeOffer.EmptyFormCannotBeAdded | src/components/ExchangeOffer.tsx:692-694 | The dialog's reset form cannot be confirmed: "Add Book" is disabled. |
| ExchangeOffer.OfferBuilder.constructor | src/components/ExchangeOffer.tsx:91-109 | Initial state: offer type "both", empty amount, selection and message, dialog closed, form at its defaults (condition 5, value 0). |
| ExchangeOffer.OfferBuilder.ToggleBookSelection | src/components/ExchangeOffer.tsx:162-168 | The selection becomes `Toggle` of the old selection, and nothing else changes. |
| ExchangeOffer.OfferBuilder.SetOfferType | src/components/ExchangeOffer.tsx:306 | Only the offer type changes. |
| ExchangeOffer.OfferBuilder.SetMoneyOffer | src/components/ExchangeOffer.tsx:323 | Only the amount text changes. The "both" tab has the same input at line 390. |
| ExchangeOffer.OfferBuilder.SetMessage | src/components/ExchangeOffer.tsx:488 | Only the message changes. |
| ExchangeOffer.OfferBuilder.SubmitOffer | src/components/ExchangeOffer.tsx:178-188 | Callable only while "Submit Offer" is enabled (line 497). The offer carries the target id, type and message. Its amount is the parsed cash. Its books are exactly `OfferedBooks`: the selected owned books in owned-list order, each as often as it is owned. Its total is their value plus the amount, which is `calculateTotalValue`. |
| ExchangeOffer.OfferBuilder.OpenAddBookDialog | src/components/ExchangeOffer.tsx:337 | Opens the dialog and changes nothing else. |
| ExchangeOffer.OfferBuilder.CancelAddBook | src/components/ExchangeOffer.tsx:658 | Closes the dialog and keeps the form as typed. |
| ExchangeOffer.OfferBuilder.SetTitle | src/components/ExchangeOffer.tsx:516-521 | Only the dialog form's title changes. |
| ExchangeOffer.OfferBuilder.SetAuthor | src/components/ExchangeOffer.tsx:526-531 | Only the dialog form's author changes. |
| ExchangeOffer.OfferBuilder.UploadImages | src/components/ExchangeOffer.tsx:190-199 | With a file list, the new preview URLs are appended after the existing photos. Without one, nothing changes. |
| ExchangeOffer.OfferBuilder.RemoveImage | src/components/ExchangeOffer.tsx:201-206 | The form's photos become `WithoutIndex` of the old photos. No other field changes. |
| ExchangeOffer.OfferBuilder.ConfirmAddBook | src/components/ExchangeOffer.tsx:663-690 | Callable only while the dialog's "Add Book" is enabled (lines 692-694). The form becomes a new owned book with the fresh id, appended after the old list. The dialog closes and the form returns to its defaults. |
| Messages.FilteredConversations | src/components/Messages.tsx:122-124 | The listed conversations are those whose user name contains the search term, ignoring case, in order, each as often as in the input. |
| Messages.EmptySearchListsAll | src/components/Messages.tsx:122-124 | The empty search term lists every conversation. |
| Messages.FindIndex | src/components/Messages.tsx:129-131 | `find` stops at the first conversation with the id, or reports that there is none. |
| Messages.FindConversation | src/components/Messages.tsx:129-131 | `find` gives nothing iff no conversation has the id, and otherwise the first conversation that has it. |
| Messages.CanSend | src/components/Messages.tsx:127-133 | When the send handler's guards pass, the input holds a non-blank character and the selection resolves to a partner. |
| Messages.ThreadMessages | src/components/Messages.tsx:319-332 | The thread shows exactly the stored messages between the current user and the partner, in either direction, in stored order, each as often as it is stored. With no partner it is empty. |
| Messages.UpdateConversations | src/components/Messages.tsx:148-160 | Every conversation with the id gets the sent text, the send time and an unread count of 0. All others are unchanged, and the order and length are kept. |
| Messages.UpdateKeepsPartner | src/components/Messages.tsx:148-160 | After the update, the selected conversation still resolves to the same partner. |
| Messages.SendDisabled | src/components/Messages.tsx:372 | The send button is disabled iff the typed message is all white space. |
| Messages.PositionalIdsAreUnique | src/components/Messages.tsx:137 | Ids of the form `m<position>` never collide. |
| Messages.SentMessageEndsThread | src/components/Messages.tsx:145 | A message sent to the partner joins the end of the partner's thread, after all earlier ones. |
| Messages.FormatTime | src/components/Messages.tsx:165-185 | The label is the clock time iff less than a day has passed, "Yesterday" iff one to two days have passed, and the month and day iff at least seven days have passed. Otherwise it is the weekday, which includes times in the future. |
| Messages.Inbox.constructor | src/components/Messages.tsx:82-87 | Nothing is selected; the search term and the input are empty. |
| Messages.Inbox.SelectConversation | src/components/Messages.tsx:231 | Only the selected conversation changes. |
| Messages.Inbox.CloseConversation | src/components/Messages.tsx:278 | Nothing is selected afterwards. |
| Messages.Inbox.SetNewMessage | src/components/Messages.tsx:359 | Only the input text changes. |
| Messages.Inbox.SetSearchTerm | src/components/Messages.tsx:221 | Only the search term changes. |
| Messages.Inbox.SendMessage | src/components/Messages.tsx:126-163 | If the text is blank, the selection is empty, or no conversation has the selected id, nothing changes. Otherwise one message `m<n+1>` from the current user to the conversation's user is appended, the conversations are updated, and the input is cleared. Positional ids stay positional. |
| BookCard.NextIndex | src/components/BookCard.tsx:85-88 | The next index stays in range and wraps from the last image to the first. |
| BookCard.PrevIndex | src/components/BookCard.tsx:90-93 | The previous index stays in range and wraps from the first image to the last. |
| BookCard.ArrowsAreInverse | src/components/BookCard.tsx:85-93 | Previous after next, and next after previous, both return the original index. |
| BookCard.FullCycleReturns | src/components/BookCard.tsx:87 | `n` clicks on the right arrow return to the starting image. |
| BookCard.Carousel.constructor | src/components/BookCard.tsx:70 | The carousel starts at image 0. |
| BookCard.Carousel.NextImage | src/components/BookCard.tsx:85-88 | Available only with more than one image (line 131). Moves to `NextIndex` and keeps the index valid. |
| BookCard.Carousel.PrevImage | src/components/BookCard.tsx:90-93 | Available only with more than one image (line 131). Moves to `PrevIndex` and keeps the index valid. |
| BookCard.GetCardStyle | src/components/BookCard.tsx:96-105 | Purple iff for sale and exchange. Red iff sale only. Blue iff exchange only. No style iff neither. |
| BookCard.ButtonLabel | src/components/BookCard.tsx:292-296 | "Buy / Exchange" iff for sale and exchange, "Buy" iff sale only, and "Exchange" iff not for sale, including a book that is neither. |
| BookCard.LabelFollowsStyle | src/components/BookCard.tsx:292-296 | "Buy / Exchange" iff purple, "Buy" iff red, and "Exchange" iff blue or unstyled. |
| BookCard.TruncateTitle | src/components/BookCard.tsx:239 | A title of at most 15 characters is shown whole. A longer one is shown as its first 15 characters followed by "...". |
| BookCard.WantedTitles | src/components/BookCard.tsx:58 | An undefined wanted list becomes the default list, so the titles are empty iff an empty list is passed; a given list is kept as is. |
| BookCard.PreferredPreview | src/components/BookCard.tsx:225-246 | An undefined wanted list falls back to the card's default list (line 58). Shown iff the book is for exchange and the resulting list is non-empty. Shows the first two titles, truncated. Has a "+N more" badge iff there are more than two. The badges plus N account for every wanted title. |
| BookCard.UndefinedWantedShowsDefaults | src/components/BookCard.tsx:58 | A for-exchange listing without a wanted list shows the badges "To Kill a Mocki..." and "1984" and no count. |
| BookDetail.SendDisabledAfterToggle | src/components/BookDetail.tsx:288 | After a click, "Send Request" is disabled iff the click removed the only selected id. |
| BookDetail.OwnerRatingStars | src/components/BookDetail.tsx:205-212 | `clamp(floor(rating), 0, 5)` of the five owner stars are filled. |
| BookDetail.SendDisabled | src/components/BookDetail.tsx:288 | "Send Request" is disabled iff no book is picked. |
| BookDetail.ExchangeRequest.constructor | src/components/BookDetail.tsx:64-66 | The dialog starts closed, with nothing selected and an empty message. |
| BookDetail.ExchangeRequest.OpenDialog | src/components/BookDetail.tsx:150 | "Request Exchange" opens the dialog and changes nothing else. |
| BookDetail.ExchangeRequest.SetDialogOpen | src/components/BookDetail.tsx:280-283 | "Cancel" and dismissing the dialog set only the open flag; the picks and the message stay. |
| BookDetail.ExchangeRequest.ToggleBookSelection | src/components/BookDetail.tsx:93-99 | The selection becomes `Toggle` of the old selection. The clicked id's membership flips, and freedom from duplicates is kept. |
| BookDetail.ExchangeRequest.SetMessage | src/components/BookDetail.tsx:274 | Only the message changes. |
| BookDetail.ExchangeRequest.HandleExchangeRequest | src/components/BookDetail.tsx:101-106 | Callable only while "Send Request" is enabled (line 288). Closes the dialog and keeps the selection and message. |
| Home.EmptyFormCannotBeAdded | src/components/home.tsx:410-413 | The default form cannot be submitted. |
| Home.AddBookDisabled | src/components/home.tsx:410-413 | "Add Book" is enabled iff the title, the author and the photo list have each left their reset value; the other fields do not matter. |
| Home.UploadEnablesAdd | src/components/home.tsx:410-413 | With a title and an author, "Add Book" is enabled after an upload iff at least one photo is then present. |
| Home.RemoveLastUploadRestores | src/components/home.tsx:58-63 | Removing the photo just appended gives back the earlier list. |
| Home.RemoveImageShiftsLater | src/components/home.tsx:58-63 | After removal, photos before the index keep their position and later photos move up by one. |
| Home.HomePage.constructor | src/components/home.tsx:35-46 | Menu and dialog closed; form at its defaults (condition "Very Good"). |
| Home.HomePage.ToggleMobileMenu | src/components/home.tsx:140 | The menu flag flips. |
| Home.HomePage.SetAddBookDialog | src/components/home.tsx:129 | Only the dialog flag changes. The same handler backs the mobile button (line 174) and the dialog's own open/close (line 225). |
| Home.HomePage.SetTitle | src/components/home.tsx:238-241 | Only the form's title changes. |
| Home.HomePage.SetAuthor | src/components/home.tsx:250-253 | Only the form's author changes. |
| Home.HomePage.SetCondition | src/components/home.tsx:338-341 | Only the form's condition changes. |
| Home.HomePage.UploadImages | src/components/home.tsx:48-56 | New URLs are appended. The old photos are a prefix of the new list, and the length grows by the number of files. Without a file list, nothing changes. |
| Home.HomePage.RemoveImage | src/components/home.tsx:58-63 | The form's photos become `WithoutIndex` of the old ones, one shorter for an index in range. |
| Home.HomePage.AddBook | src/components/home.tsx:65-81 | Callable only while "Add Book" is enabled (lines 410-413). The form is reset to the same defaults as the initial state, and the dialog is closed. |
| Home.HomePage.CancelAddBook | src/components/home.tsx:393-404 | The dialog is closed and the form is reset to the defaults. |

## Left out

- `parseFloat` is modelled on its integer part only: leading white space, a sign, then digits. A fractional amount such as "12.5" counts as 12, and exponents and "Infinity" are not read. Estimated values are integers.
- Case mapping and `trim` use ASCII letters and a fixed set of white-space characters. Unicode case folding and the other Unicode spaces are not modelled. Strings are sequences of characters, not UTF-16 code units, so `length` counts characters.
- `formatTime` is modelled as the choice of label. The locale-formatted text is not modelled, and the current time is a parameter.
- `URL.createObjectURL`, `Date.now().toString()` ids and `new Date()` are parameters of the handlers that use them.
- `console.log`, the `onSubmitOffer`/`onBack`/`onExchangeClick`/`onReviewClick` callbacks, navigation and the Enter-key shortcut are not modelled. The shortcut calls the same `handleSendMessage`.
- React's batching of state updates is not modelled: each handler is one atomic transition.
- Several text and number inputs are plain field assignments with no logic and are not modelled: the offer dialog's genre, date, description, condition and value fields, and the home dialog's asking-books, price, date and Rokomari fields. The offer dialog's `parseInt` on condition and value is not modelled either.
- The other default props of `BookCard` (id, title, images, condition, prices, flags, owner) are not modelled: the card's functions take the values after defaulting. Only the wanted-list default is modelled, because it decides whether the preview shows.
- JSX, CSS classes and layout are not modelled. Card styles are an enumeration, not class strings.
- The mock catalogue, conversations and messages are not modelled. One catalogue entry (Dune, id "2", through the fields the filters read) and one invented listing (a George Orwell "1984" with an id the catalogue does not use) appear in scenario lemmas.
- `src/components/UserProfile.tsx`, `src/components/Header.tsx` and `src/App.tsx` are not part of this model. They are presentation, navigation and routing.
