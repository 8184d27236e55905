/**
 * The catalogue view (`BookGrid`): the listings and the four filters the
 * user sets above the grid. `FilteredBooks` is what the grid renders.
 */
module Catalog {
  import opened Wrappers
  import opened Seqs
  import opened Text

  datatype Owner = Owner(name: string, avatar: string)

  /** One listing; `undefined` optional fields are `None`. */
  datatype Book = Book(
    id: string,
    title: string,
    author: string,
    images: seq<string>,
    condition: int,
    genre: string,
    askingPrice: Option<int>,
    rokomariPrice: Option<int>,
    preferredExchangeBooks: Option<seq<string>>,
    isForSale: bool,
    isForExchange: bool,
    owner: Owner)

  /** The search box, the genre and condition drop-downs and the category tab. */
  datatype Filters = Filters(
    searchTerm: string,
    selectedGenre: string,
    selectedCondition: string,
    activeTab: string)

  /** The state the view starts in. */
  const InitialFilters := Filters("", "all", "all", "all")

  /** Genres the "Fiction" tab shows. */
  const FictionGenres: seq<string> := [
    "Fantasy", "Science Fiction", "Mystery", "Romance", "Thriller",
    "Psychological Thriller", "Classic Literature", "Young Adult Fantasy",
    "Historical Fiction", "Dystopian Fiction", "Adventure Thriller",
    "Crime Thriller", "Young Adult Dystopian", "Epic Fantasy", "Coming-of-Age",
    "Young Adult Romance", "Literary Fiction", "Contemporary Fiction",
    "Historical Romance", "Contemporary Romance", "Cozy Mystery", "Mythology",
    "Classic Science Fiction", "Contemporary Literature"]

  /** Genres the "Non-Fiction" tab shows. */
  const NonfictionGenres: seq<string> := [
    "Biography", "History", "Self-Help", "Non-Fiction", "Memoir", "Philosophy",
    "Spirituality", "Psychology", "Business"]

  /** The only condition values the condition predicate compares numerically. */
  const ConditionDigits: seq<string> := ["1", "2", "3", "4", "5"]

  /** What the condition drop-down actually offers besides "all". */
  const ConditionOptions: seq<string> := ["New", "Like New", "Very Good", "Good", "Fair", "Poor"]

  predicate MatchesSearch(book: Book, term: string)
  {
    Contains(Lower(book.title), Lower(term)) || Contains(Lower(book.author), Lower(term))
  }

  predicate MatchesGenre(book: Book, genre: string)
  {
    genre == "all" || book.genre == genre
  }

  predicate MatchesCondition(book: Book, condition: string)
  {
    condition == "all" || (condition in ConditionDigits && book.condition == DigitsValue(condition))
  }

  predicate MatchesTab(book: Book, tab: string)
  {
    tab == "all"
    || (tab == "fiction" && book.genre in FictionGenres)
    || (tab == "nonfiction" && book.genre in NonfictionGenres)
  }

  predicate Keep(book: Book, f: Filters)
  {
    MatchesSearch(book, f.searchTerm) && MatchesGenre(book, f.selectedGenre)
    && MatchesCondition(book, f.selectedCondition) && MatchesTab(book, f.activeTab)
  }

  /** `filteredBooks`: the listings passing all four filters, in catalogue order. */
  function FilteredBooks(books: seq<Book>, f: Filters): (r: seq<Book>)
    ensures IsSubsequence(r, books)
    ensures forall b :: b in r <==> b in books && Keep(b, f)
    ensures forall b :: multiset(r)[b] == if Keep(b, f) then multiset(books)[b] else 0
    ensures |r| <= |books|
  {
    FilterLength(b => Keep(b, f), books);
    Filter(b => Keep(b, f), books)
  }

  /** The search ignores letter case on both sides: upper-casing the term changes nothing. */
  lemma SearchIgnoresCase(book: Book, term: string)
    ensures MatchesSearch(book, Upper(term)) == MatchesSearch(book, term)
    ensures MatchesSearch(book.(title := Upper(book.title), author := Upper(book.author)), term)
      == MatchesSearch(book, term)
  {
    LowerOfUpper(term);
    LowerOfUpper(book.title);
    LowerOfUpper(book.author);
  }

  /** The empty search term passes every book. */
  lemma EmptySearchMatchesAll(book: Book)
    ensures MatchesSearch(book, "")
  {
    assert Lower("") == "";
    ContainsEmpty(Lower(book.title));
  }

  /** A digit "1".."5" passes exactly the books of that condition. */
  lemma ConditionDigitMatchesExactly(book: Book, k: int)
    requires 1 <= k <= 5
    ensures MatchesCondition(book, DecimalString(k)) <==> book.condition == k
  {
    assert DecimalString(k) == ConditionDigits[k - 1];
  }

  /** Every value the condition drop-down offers (other than "all") rejects every book. */
  lemma ConditionOptionsMatchNothing(books: seq<Book>, f: Filters)
    requires f.selectedCondition in ConditionOptions
    ensures FilteredBooks(books, f) == []
  {
    var c := f.selectedCondition;
    assert c != "all" && c !in ConditionDigits by {
      var i :| 0 <= i < |ConditionOptions| && ConditionOptions[i] == c;
      assert |c| >= 3;
    }
    forall b | b in books ensures !Keep(b, f) {
      assert !MatchesCondition(b, c);
    }
    FilterKeepsNone(b => Keep(b, f), books);
  }

  /** Any tab other than "all", "fiction" and "nonfiction" (such as "recent") shows nothing. */
  lemma OtherTabsMatchNothing(books: seq<Book>, f: Filters)
    requires f.activeTab !in ["all", "fiction", "nonfiction"]
    ensures FilteredBooks(books, f) == []
  {
    FilterKeepsNone(b => Keep(b, f), books);
  }

  /** The state the view opens with shows the whole catalogue. */
  lemma InitialFiltersShowAll(books: seq<Book>)
    ensures FilteredBooks(books, InitialFilters) == books
  {
    forall b | b in books ensures Keep(b, InitialFilters) {
      EmptySearchMatchesAll(b);
    }
    FilterKeepsAll(b => Keep(b, InitialFilters), books);
  }

  /** Filtering the filtered list again changes nothing. */
  lemma FilteringIsIdempotent(books: seq<Book>, f: Filters)
    ensures FilteredBooks(FilteredBooks(books, f), f) == FilteredBooks(books, f)
  {
    FilterIdempotent(b => Keep(b, f), books);
  }

  /** No genre is in both category tables, so no book shows under both tabs. */
  lemma CategoriesAreDisjoint(book: Book, f: Filters, g: Filters)
    requires f.activeTab == "fiction" && g.activeTab == "nonfiction"
    ensures !(MatchesTab(book, f.activeTab) && MatchesTab(book, g.activeTab))
  {
    if book.genre in FictionGenres {
      var i :| 0 <= i < |FictionGenres| && FictionGenres[i] == book.genre;
      assert book.genre !in NonfictionGenres;
    }
  }

  function SampleBook(id: string, title: string, author: string, genre: string, condition: int): Book
  {
    Book(id, title, author, [], condition, genre, None, None, None, true, true, Owner("", ""))
  }

  /** The catalogue's "Dune" (id "2"), as far as the filters read it. */
  const Dune := SampleBook("2", "Dune", "Frank Herbert", "Science Fiction", 4)
  /** An invented listing: the catalogue has no book with this id. */
  const Orwell := SampleBook("sample-1984", "1984", "George Orwell", "Fiction", 5)

  lemma DuneMatchesItsTitle()
    ensures MatchesSearch(Dune, "dune")
  {
    assert Lower("dune") == "dune";
    assert Lower("Dune") == "dune";
    assert OccursAt("dune", "dune", 0);
  }

  lemma OrwellDoesNotMatchDune()
    ensures !MatchesSearch(Orwell, "dune")
  {
    assert Lower("dune")[0] == 'd';
    LetterAbsentFromLower("1984", 'd');
    LetterAbsentFromLower("George Orwell", 'd');
    NotContainsWithoutFirstChar(Lower("1984"), Lower("dune"));
    NotContainsWithoutFirstChar(Lower("George Orwell"), Lower("dune"));
  }

  /** Searching "dune" finds Dune and not 1984. */
  lemma SearchScenario()
    ensures FilteredBooks([Dune, Orwell], Filters("dune", "all", "all", "all")) == [Dune]
  {
    var f := Filters("dune", "all", "all", "all");
    DuneMatchesItsTitle();
    OrwellDoesNotMatchDune();
    FilterPair(b => Keep(b, f), Dune, Orwell);
  }

  /** Condition "5" finds 1984 and not Dune. */
  lemma ConditionScenario()
    ensures FilteredBooks([Dune, Orwell], Filters("", "all", "5", "all")) == [Orwell]
  {
    var f := Filters("", "all", "5", "all");
    assert ConditionDigits[4] == "5";
    assert DigitsValue("5") == 5;
    assert MatchesCondition(Orwell, "5") && !MatchesCondition(Dune, "5");
    EmptySearchMatchesAll(Orwell);
    assert Keep(Orwell, f) && !Keep(Dune, f);
    FilterPair(b => Keep(b, f), Dune, Orwell);
  }
}
