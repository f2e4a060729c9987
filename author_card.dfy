/** The author card: a following flag and a liked flag, each flipped by its
    own button, the follow button's caption and variant, and one badge per
    category. Callback props are recorded, in order, as the calls the card
    made. */
module AuthorCard {
  import opened Wrappers
  import opened Catalog

  /** A call the card made to one of its callback props, with its argument. */
  datatype Callback = Followed(id: string) | Viewed(id: string) | Shared(id: string)

  /** Which of the optional callback props the parent supplied. */
  datatype Props = Props(onFollow: bool, onView: bool, onShare: bool)

  /** A button's caption and its variant. */
  datatype Button = Button(caption: string, variant: string)

  /** A category badge: its React key and its text. */
  datatype Badge = Badge(key: nat, text: string)

  /** The follow button: "Следван" in the secondary variant while
      following, "Следвай" in the default variant otherwise. */
  function FollowButton(isFollowing: bool): (b: Button)
    ensures b.caption == "Следван" <==> isFollowing
    ensures b.caption == "Следвай" <==> !isFollowing
    ensures b.variant == "secondary" <==> isFollowing
    ensures b.variant == "default" <==> !isFollowing
  {
    if isFollowing then Button("Следван", "secondary") else Button("Следвай", "default")
  }

  /** `author.categories.map(...)`: one badge per category, in list order,
      keyed by its position, so no two badges share a key. */
  function CategoryBadges(categories: seq<string>): (badges: seq<Badge>)
    ensures |badges| == |categories|
    ensures forall i :: 0 <= i < |badges| ==> badges[i].text == categories[i] && badges[i].key == i
    ensures forall i, j :: 0 <= i < j < |badges| ==> badges[i].key != badges[j].key
  {
    seq(|categories|, i requires 0 <= i < |categories| => Badge(i, categories[i]))
  }

  /** The component's state cells. */
  class Card {
    const author: Author
    const props: Props
    var isFollowing: bool
    var isLiked: bool
    var calls: seq<Callback>

    /** `useState(author.isFollowing || false)` and `useState(false)`. */
    constructor (author: Author, props: Props)
      ensures this.author == author && this.props == props
      ensures isFollowing == OrFalse(author.isFollowing) && !isLiked && calls == []
    {
      this.author := author;
      this.props := props;
      isFollowing := OrFalse(author.isFollowing);
      isLiked := false;
      calls := [];
    }

    /** The follow button for the current state. */
    function CurrentFollowButton(): Button
      reads this
    {
      FollowButton(isFollowing)
    }

    /** `handleFollow`: flip the following flag and tell `onFollow`, when given. */
    method HandleFollow()
      modifies this`isFollowing, this`calls
      ensures isFollowing == !old(isFollowing) && isLiked == old(isLiked)
      ensures calls == old(calls) + (if props.onFollow then [Followed(author.id)] else [])
    {
      isFollowing := !isFollowing;
      if props.onFollow {
        calls := calls + [Followed(author.id)];
      }
    }

    /** `handleLike`: flip the liked flag; no callback is told. */
    method HandleLike()
      modifies this`isLiked
      ensures isLiked == !old(isLiked) && isFollowing == old(isFollowing)
      ensures calls == old(calls)
    {
      isLiked := !isLiked;
    }

    /** `handleView`: only tells `onView`, when given. */
    method HandleView()
      modifies this`calls
      ensures isFollowing == old(isFollowing) && isLiked == old(isLiked)
      ensures calls == old(calls) + (if props.onView then [Viewed(author.id)] else [])
    {
      if props.onView {
        calls := calls + [Viewed(author.id)];
      }
    }

    /** `handleShare`: only tells `onShare`, when given. */
    method HandleShare()
      modifies this`calls
      ensures isFollowing == old(isFollowing) && isLiked == old(isLiked)
      ensures calls == old(calls) + (if props.onShare then [Shared(author.id)] else [])
    {
      if props.onShare {
        calls := calls + [Shared(author.id)];
      }
    }
  }

  /** Following twice restores the flag, and the caption with it. */
  method FollowTwice(c: Card)
    modifies c
    ensures c.isFollowing == old(c.isFollowing) && c.isLiked == old(c.isLiked)
    ensures c.CurrentFollowButton() == old(c.CurrentFollowButton())
  {
    c.HandleFollow();
    c.HandleFollow();
  }
}
