/** The artwork card: a liked flag, a hover flag that fades in an action
    overlay, the star rating, and a price line and purchase button that
    depend on the artwork's optional price. Callback props are recorded,
    in order, as the calls the card made. */
module ArtworkCard {
  import opened Wrappers
  import opened Catalog
  import Stars

  /** A call the card made to one of its callback props, with its argument. */
  datatype Callback = Liked(id: string) | Viewed(id: string) | Shared(id: string) | Purchased(id: string)

  /** Which of the optional callback props the parent supplied. */
  datatype Props = Props(onLike: bool, onView: bool, onShare: bool, onPurchase: bool)

  /** A footer node as React draws it. */
  datatype Node = Empty | Text(s: string) | PriceLabel(amount: real) | PurchaseButton

  /** Opacity, in percent, of the action overlay. */
  function OverlayOpacity(isHovered: bool): (percent: nat)
    ensures percent == 100 <==> isHovered
    ensures percent == 0 <==> !isHovered
  {
    if isHovered then 100 else 0
  }

  /** The artwork's star row. */
  function RatingStars(w: Artwork): (filled: seq<bool>)
    ensures |filled| == Stars.StarCount
    ensures forall i :: 0 <= i < Stars.StarCount ==> (filled[i] <==> i as real < w.rating)
    ensures Stars.CountFilled(filled) == Stars.Clamp(Stars.Ceiling(w.rating), Stars.StarCount)
  {
    Stars.FilledStars(w.rating);
    Stars.RenderStars(w.rating)
  }

  /** `{artwork.price && element}` as written: an absent price draws
      nothing, a price of 0 makes the expression yield the number 0, which
      React draws as the text "0", and any other price yields the element. */
  function GuardAsWritten(price: Option<real>, element: Node): (n: Node)
    ensures price.None? ==> n == Empty
    ensures price == Some(0.0) ==> n == Text("0")
    ensures HasPrice(price) ==> n == element
  {
    match price
    case None => Empty
    case Some(p) => if p == 0.0 then Text("0") else element
  }

  /** The footer as written: the guarded price line, then the guarded button. */
  function FooterAsWritten(price: Option<real>): (nodes: seq<Node>)
    ensures price.None? ==> nodes == [Empty, Empty]
    ensures price == Some(0.0) ==> nodes == [Text("0"), Text("0")]
    ensures HasPrice(price) ==> nodes == [PriceLabel(price.value), PurchaseButton]
  {
    [GuardAsWritten(price, PriceLabel(price.GetOr(0.0))), GuardAsWritten(price, PurchaseButton)]
  }

  /** An artwork priced 0 shows two stray "0" texts in its footer instead of
      an empty one; for every other price the written footer is the intended one. */
  lemma ZeroPriceFooter()
    ensures FooterAsWritten(Some(0.0)) == [Text("0"), Text("0")]
    ensures Footer(Some(0.0)) == [Empty, Empty]
    ensures forall price :: price != Some(0.0) ==> FooterAsWritten(price) == Footer(price)
  {
  }

  /** The artwork has a price worth showing: defined and not zero. */
  predicate HasPrice(price: Option<real>) {
    price.Some? && price.value != 0.0
  }

  /** The intended guard: the element exactly when there is a price, and
      nothing otherwise. */
  function Guard(price: Option<real>, element: Node): (n: Node)
    requires element != Empty
    ensures n != Empty <==> HasPrice(price)
    ensures n == Empty || n == element
  {
    if HasPrice(price) then element else Empty
  }

  /** The footer: the price line and the purchase button both appear when
      the artwork has a price, and otherwise nothing appears, never a text. */
  function Footer(price: Option<real>): (nodes: seq<Node>)
    ensures HasPrice(price) ==> nodes == [PriceLabel(price.value), PurchaseButton]
    ensures !HasPrice(price) ==> nodes == [Empty, Empty]
  {
    [Guard(price, PriceLabel(price.GetOr(0.0))), Guard(price, PurchaseButton)]
  }

  /** The component's state cells. */
  class Card {
    const artwork: Artwork
    const props: Props
    var isLiked: bool
    var isHovered: bool
    var calls: seq<Callback>

    /** `useState(artwork.isLiked || false)` and `useState(false)`. */
    constructor (artwork: Artwork, props: Props)
      ensures this.artwork == artwork && this.props == props
      ensures isLiked == OrFalse(artwork.isLiked) && !isHovered && calls == []
    {
      this.artwork := artwork;
      this.props := props;
      isLiked := OrFalse(artwork.isLiked);
      isHovered := false;
      calls := [];
    }

    /** `handleLike`: flip the liked flag and tell `onLike`, when given. */
    method HandleLike()
      modifies this`isLiked, this`calls
      ensures isLiked == !old(isLiked)
      ensures calls == old(calls) + (if props.onLike then [Liked(artwork.id)] else [])
    {
      isLiked := !isLiked;
      if props.onLike {
        calls := calls + [Liked(artwork.id)];
      }
    }

    /** `handleView`: only tells `onView`, when given. */
    method HandleView()
      modifies this`calls
      ensures isLiked == old(isLiked) && isHovered == old(isHovered)
      ensures calls == old(calls) + (if props.onView then [Viewed(artwork.id)] else [])
    {
      if props.onView {
        calls := calls + [Viewed(artwork.id)];
      }
    }

    /** `handleShare`: only tells `onShare`, when given. */
    method HandleShare()
      modifies this`calls
      ensures isLiked == old(isLiked) && isHovered == old(isHovered)
      ensures calls == old(calls) + (if props.onShare then [Shared(artwork.id)] else [])
    {
      if props.onShare {
        calls := calls + [Shared(artwork.id)];
      }
    }

    /** `handlePurchase`: only tells `onPurchase`, when given. */
    method HandlePurchase()
      modifies this`calls
      ensures isLiked == old(isLiked) && isHovered == old(isHovered)
      ensures calls == old(calls) + (if props.onPurchase then [Purchased(artwork.id)] else [])
    {
      if props.onPurchase {
        calls := calls + [Purchased(artwork.id)];
      }
    }

    /** `onMouseEnter`. */
    method MouseEnter()
      modifies this`isHovered
      ensures isHovered
    {
      isHovered := true;
    }

    /** `onMouseLeave`. */
    method MouseLeave()
      modifies this`isHovered
      ensures !isHovered
    {
      isHovered := false;
    }
  }

  /** Liking twice restores the liked flag. */
  method LikeTwice(c: Card)
    modifies c
    ensures c.isLiked == old(c.isLiked) && c.isHovered == old(c.isHovered)
  {
    c.HandleLike();
    c.HandleLike();
  }
}
