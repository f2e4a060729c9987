/** The records the gallery's cards display: an author and an artwork, as
    the card components declare them. Only the fields some behaviour reads
    are kept; image URLs are carried as plain strings. */
module Catalog {
  import opened Wrappers

  /** `interface Author` of the author card. */
  datatype Author = Author(
    id: string,
    name: string,
    bio: string,
    avatar: string,
    artworksCount: int,
    followersCount: int,
    categories: seq<string>,
    isFollowing: Option<bool>)

  /** `interface Artwork` of the artwork card; `price` and `isLiked` are optional. */
  datatype Artwork = Artwork(
    id: string,
    title: string,
    artist: string,
    image: string,
    category: string,
    price: Option<real>,
    rating: real,
    reviewsCount: int,
    isLiked: Option<bool>,
    dimensions: string,
    year: int)

  /** JavaScript's `flag || false` on an optional boolean: true exactly when
      the flag is present and true, false when it is false or absent. */
  function OrFalse(flag: Option<bool>): (b: bool)
    ensures b <==> flag == Some(true)
    ensures flag.Some? ==> b == flag.value
  {
    flag.GetOr(false)
  }
}
