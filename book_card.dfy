/**
 * The listing card (`BookCard`): the image carousel, the style and label
 * the sale/exchange flags select, and the preview of wanted books.
 */
module BookCard {
  import opened Wrappers

  /** `nextImage`: `(i + 1) % n`, wrapping from the last image to the first. */
  function NextIndex(i: int, n: int): (r: int)
    requires 0 <= i < n
    ensures 0 <= r < n
    ensures r == if i == n - 1 then 0 else i + 1
  {
    (i + 1) % n
  }

  /** `prevImage`: `(i - 1 + n) % n`, wrapping from the first image to the last. */
  function PrevIndex(i: int, n: int): (r: int)
    requires 0 <= i < n
    ensures 0 <= r < n
    ensures r == if i == 0 then n - 1 else i - 1
  {
    (i - 1 + n) % n
  }

  /** The two arrows undo each other, in either order. */
  lemma ArrowsAreInverse(i: int, n: int)
    requires 0 <= i < n
    ensures PrevIndex(NextIndex(i, n), n) == i
    ensures NextIndex(PrevIndex(i, n), n) == i
  {
  }

  /** The index after `k` clicks on the right arrow. */
  function Advance(i: int, n: int, k: nat): (r: int)
    requires 0 <= i < n
    ensures 0 <= r < n
  {
    if k == 0 then i else NextIndex(Advance(i, n, k - 1), n)
  }

  /** Clicking `k` times without passing the last image moves `k` places; reaching past it lands on the first. */
  lemma {:induction false} AdvanceWithinRing(i: int, n: int, k: nat)
    requires 0 <= i < n && k <= n - i
    ensures Advance(i, n, k) == if i + k == n then 0 else i + k
  {
    if k > 0 {
      AdvanceWithinRing(i, n, k - 1);
    }
  }

  /** Clicking `a` times and then `b` times is clicking `a + b` times. */
  lemma {:induction false} AdvanceComposes(i: int, n: int, a: nat, b: nat)
    requires 0 <= i < n
    ensures Advance(i, n, a + b) == Advance(Advance(i, n, a), n, b)
  {
    if b > 0 {
      AdvanceComposes(i, n, a, b - 1);
    }
  }

  /** As many clicks as there are images come back to the image shown first. */
  lemma FullCycleReturns(i: int, n: int)
    requires 0 <= i < n
    ensures Advance(i, n, n) == i
  {
    AdvanceWithinRing(i, n, n - i);
    AdvanceComposes(i, n, n - i, i);
    AdvanceWithinRing(0, n, i);
  }

  /** The card's image carousel. */
  class Carousel {
    const images: seq<string>
    var currentImageIndex: int

    /** The index names an image (or is 0 when there is none). */
    ghost predicate Valid()
      reads this
    {
      0 <= currentImageIndex && (|images| == 0 ==> currentImageIndex == 0)
      && (|images| > 0 ==> currentImageIndex < |images|)
    }

    /** A new card shows its first image. */
    constructor (images: seq<string>)
      ensures this.images == images && currentImageIndex == 0 && Valid()
    {
      this.images := images;
      currentImageIndex := 0;
    }

    /** The arrows are rendered only when there is more than one image. */
    predicate ShowsArrows()
    {
      |images| > 1
    }

    /** The right arrow. */
    method NextImage()
      requires Valid() && ShowsArrows()
      modifies this`currentImageIndex
      ensures Valid()
      ensures currentImageIndex == NextIndex(old(currentImageIndex), |images|)
    {
      currentImageIndex := (currentImageIndex + 1) % |images|;
    }

    /** The left arrow. */
    method PrevImage()
      requires Valid() && ShowsArrows()
      modifies this`currentImageIndex
      ensures Valid()
      ensures currentImageIndex == PrevIndex(old(currentImageIndex), |images|)
    {
      currentImageIndex := (currentImageIndex - 1 + |images|) % |images|;
    }
  }

  /** The card's colour scheme (`getCardStyle`): purple, red, blue or none. */
  datatype CardStyle = Purple | Red | Blue | NoStyle

  function GetCardStyle(isForSale: bool, isForExchange: bool): (r: CardStyle)
    ensures r == Purple <==> isForSale && isForExchange
    ensures r == Red <==> isForSale && !isForExchange
    ensures r == Blue <==> !isForSale && isForExchange
    ensures r == NoStyle <==> !isForSale && !isForExchange
  {
    if isForSale && isForExchange then Purple
    else if isForSale then Red
    else if isForExchange then Blue
    else NoStyle
  }

  /** The label of the card's main button. */
  function ButtonLabel(isForSale: bool, isForExchange: bool): (r: string)
    ensures r == "Buy / Exchange" <==> isForSale && isForExchange
    ensures r == "Buy" <==> isForSale && !isForExchange
    ensures r == "Exchange" <==> !isForSale
  {
    if isForSale && isForExchange then "Buy / Exchange"
    else if isForSale then "Buy"
    else "Exchange"
  }

  /** The label agrees with the style: only a card with no style mislabels itself as "Exchange". */
  lemma LabelFollowsStyle(isForSale: bool, isForExchange: bool)
    ensures ButtonLabel(isForSale, isForExchange) == "Buy / Exchange" <==> GetCardStyle(isForSale, isForExchange) == Purple
    ensures ButtonLabel(isForSale, isForExchange) == "Buy" <==> GetCardStyle(isForSale, isForExchange) == Red
    ensures ButtonLabel(isForSale, isForExchange) == "Exchange" <==> GetCardStyle(isForSale, isForExchange) in {Blue, NoStyle}
  {
  }

  /** Longest title a badge shows in full. */
  const BadgeWidth := 15

  /** A wanted title as its badge shows it: at most 15 characters, then "...". */
  function TruncateTitle(t: string): (r: string)
    ensures |t| <= BadgeWidth ==> r == t
    ensures |t| > BadgeWidth ==> |r| == BadgeWidth + 3 && r[..BadgeWidth] == t[..BadgeWidth] && r[BadgeWidth..] == "..."
  {
    if |t| > BadgeWidth then t[..BadgeWidth] + "..." else t
  }

  /** The wanted list a card falls back to when its listing has none. */
  const DefaultPreferredBooks: seq<string> := ["To Kill a Mockingbird", "1984"]

  /** The wanted titles after the card's default for an undefined list. */
  function WantedTitles(wanted: Option<seq<string>>): (r: seq<string>)
    ensures r == [] <==> wanted == Some([])
    ensures wanted.Some? ==> r == wanted.value
  {
    match wanted
    case None => DefaultPreferredBooks
    case Some(titles) => titles
  }

  /** The "Wants in exchange" block: hidden, or up to two badges and a "+N more" count. */
  datatype Preview = Hidden | Shown(badges: seq<string>, more: Option<nat>)

  function PreferredPreview(isForExchange: bool, wanted: Option<seq<string>>): (r: Preview)
    ensures r.Shown? <==> isForExchange && |WantedTitles(wanted)| > 0
    ensures r.Shown? ==>
      var titles := WantedTitles(wanted);
      && |r.badges| == (if |titles| < 2 then |titles| else 2)
      && (forall k :: 0 <= k < |r.badges| ==> r.badges[k] == TruncateTitle(titles[k]))
      && (r.more.Some? <==> |titles| > 2)
      && |r.badges| + (if r.more.Some? then r.more.value else 0) == |titles|
  {
    var titles := WantedTitles(wanted);
    if isForExchange && |titles| > 0 then
      var first := if |titles| < 2 then titles else titles[..2];
      Shown(seq(|first|, k requires 0 <= k < |first| => TruncateTitle(first[k])),
            if |titles| > 2 then Some(|titles| - 2) else None)
    else Hidden
  }

  /** A listing for exchange that names no wanted books shows the card's two default titles. */
  lemma UndefinedWantedShowsDefaults()
    ensures PreferredPreview(true, None) == Shown(["To Kill a Mocki...", "1984"], None)
  {
    var first := DefaultPreferredBooks[0];
    assert |first| == 21;
    assert first[..BadgeWidth] == "To Kill a Mocki";
    assert TruncateTitle(first) == "To Kill a Mocki...";
    assert TruncateTitle(DefaultPreferredBooks[1]) == "1984";
  }
}
