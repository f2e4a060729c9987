/** The gallery page: a search box, a section filter, a category filter and
    a view toggle over a list of authors and a list of artworks; the
    filtered lists decide which sections, counts and the "no results" card
    appear. Lower-casing is the `lower` parameter, left uninterpreted. */
module ArtGallery {
  import opened Strings
  import opened Filter
  import opened Catalog

  datatype ViewMode = Grid | ListView

  /** `type FilterBy = 'all' | 'artworks' | 'authors'`. */
  datatype FilterBy = All | Artworks | Authors

  /** The category value that disables the category filter. */
  const AllCategories: string := "all"

  /** The options of the category select. */
  const Categories: seq<string> :=
    ["all", "Абстрактно", "Пейзажи", "Модерно", "Класическо", "Портрети", "Реализъм"]

  /** `lower(text).includes(lower(query))`. */
  predicate MatchesText(text: string, query: string, lower: string -> string) {
    Includes(lower(text), lower(query))
  }

  /** The author predicate: the query occurs in the name or in the bio. */
  predicate AuthorMatches(a: Author, query: string, lower: string -> string) {
    MatchesText(a.name, query, lower) || MatchesText(a.bio, query, lower)
  }

  /** The artwork predicate: the query occurs in the title or the artist,
      and the category filter is off or names the artwork's category. */
  predicate ArtworkMatches(w: Artwork, query: string, category: string, lower: string -> string) {
    (MatchesText(w.title, query, lower) || MatchesText(w.artist, query, lower))
    && (category == AllCategories || w.category == category)
  }

  /** `filteredAuthors`: the authors the query matches, in their order. It
      does not depend on the selected category. */
  function FilteredAuthors(authors: seq<Author>, query: string, lower: string -> string): (r: seq<Author>)
    ensures IsSubsequence(r, authors)
    ensures forall a :: a in r <==> a in authors && AuthorMatches(a, query, lower)
    ensures forall a :: multiset(r)[a] == if AuthorMatches(a, query, lower) then multiset(authors)[a] else 0
  {
    KeepIsSubsequence(authors, a => AuthorMatches(a, query, lower));
    Keep(authors, a => AuthorMatches(a, query, lower))
  }

  /** `filteredArtworks`: the artworks matching query and category, in their order. */
  function FilteredArtworks(artworks: seq<Artwork>, query: string, category: string,
                            lower: string -> string): (r: seq<Artwork>)
    ensures IsSubsequence(r, artworks)
    ensures forall w :: w in r <==> w in artworks && ArtworkMatches(w, query, category, lower)
    ensures forall w :: multiset(r)[w] == if ArtworkMatches(w, query, category, lower) then multiset(artworks)[w] else 0
  {
    KeepIsSubsequence(artworks, w => ArtworkMatches(w, query, category, lower));
    Keep(artworks, w => ArtworkMatches(w, query, category, lower))
  }

  /** Choosing a category only narrows the artworks shown under "all". */
  lemma CategoryNarrows(artworks: seq<Artwork>, query: string, category: string, lower: string -> string)
    ensures IsSubsequence(FilteredArtworks(artworks, query, category, lower),
                          FilteredArtworks(artworks, query, AllCategories, lower))
  {
    KeepMonotone(artworks, w => ArtworkMatches(w, query, category, lower),
                 w => ArtworkMatches(w, query, AllCategories, lower));
  }

  /** With an empty query and no category every author and artwork is kept
      (lower-casing maps the empty string to itself). */
  lemma EmptySearchKeepsEverything(authors: seq<Author>, artworks: seq<Artwork>, lower: string -> string)
    requires lower("") == ""
    ensures FilteredAuthors(authors, "", lower) == authors
    ensures FilteredArtworks(artworks, "", AllCategories, lower) == artworks
  {
    forall a | a in authors ensures AuthorMatches(a, "", lower) {
      EmptyIncluded(lower(a.name));
    }
    forall w | w in artworks ensures ArtworkMatches(w, "", AllCategories, lower) {
      EmptyIncluded(lower(w.title));
    }
    KeepAll(authors, a => AuthorMatches(a, "", lower));
    KeepAll(artworks, w => ArtworkMatches(w, "", AllCategories, lower));
  }

  /** The authors section: the section filter admits authors and some author is kept. */
  predicate AuthorsSectionShown(filterBy: FilterBy, authorCount: nat) {
    (filterBy == All || filterBy == Authors) && authorCount > 0
  }

  /** The artworks section: the section filter admits artworks and some artwork is kept. */
  predicate ArtworksSectionShown(filterBy: FilterBy, artworkCount: nat) {
    (filterBy == All || filterBy == Artworks) && artworkCount > 0
  }

  /** The "no results" card, as the page writes its condition; it appears
      exactly when neither section does. */
  function NoResultsShown(filterBy: FilterBy, authorCount: nat, artworkCount: nat): (shown: bool)
    ensures shown <==> !AuthorsSectionShown(filterBy, authorCount) && !ArtworksSectionShown(filterBy, artworkCount)
  {
    (filterBy == All && authorCount == 0 && artworkCount == 0)
    || (filterBy == Authors && authorCount == 0)
    || (filterBy == Artworks && artworkCount == 0)
  }

  /** The noun of a count badge: the singular form exactly for one item. */
  function CountNoun(count: nat, singular: string, plural: string): (noun: string)
    requires singular != plural
    ensures noun == singular <==> count == 1
    ensures noun == plural <==> count != 1
  {
    if count == 1 then singular else plural
  }

  /** The badge of the authors section. */
  function AuthorsBadge(count: nat): (noun: string)
    ensures noun == "автор" <==> count == 1
    ensures noun == "автора" <==> count != 1
  {
    CountNoun(count, "автор", "автора")
  }

  /** The badge of the artworks section. */
  function ArtworksBadge(count: nat): (noun: string)
    ensures noun == "произведение" <==> count == 1
    ensures noun == "произведения" <==> count != 1
  {
    CountNoun(count, "произведение", "произведения")
  }

  /** The page's four state cells over the given data. */
  class Gallery {
    const authors: seq<Author>
    const artworks: seq<Artwork>
    const lower: string -> string
    var searchQuery: string
    var viewMode: ViewMode
    var filterBy: FilterBy
    var selectedCategory: string

    constructor (authors: seq<Author>, artworks: seq<Artwork>, lower: string -> string)
      ensures this.authors == authors && this.artworks == artworks && this.lower == lower
      ensures searchQuery == "" && viewMode == Grid && filterBy == All && selectedCategory == AllCategories
    {
      this.authors := authors;
      this.artworks := artworks;
      this.lower := lower;
      searchQuery := "";
      viewMode := Grid;
      filterBy := All;
      selectedCategory := AllCategories;
    }

    function VisibleAuthors(): seq<Author>
      reads this
    {
      FilteredAuthors(authors, searchQuery, lower)
    }

    function VisibleArtworks(): seq<Artwork>
      reads this
    {
      FilteredArtworks(artworks, searchQuery, selectedCategory, lower)
    }

    /** Which of the three result blocks the page draws. */
    function Shown(): (blocks: (bool, bool, bool))
      reads this
      ensures blocks.2 <==> !blocks.0 && !blocks.1
    {
      (AuthorsSectionShown(filterBy, |VisibleAuthors()|),
       ArtworksSectionShown(filterBy, |VisibleArtworks()|),
       NoResultsShown(filterBy, |VisibleAuthors()|, |VisibleArtworks()|))
    }

    /** The search input's `onChange`. */
    method SetSearchQuery(query: string)
      modifies this`searchQuery
      ensures searchQuery == query
    {
      searchQuery := query;
    }

    /** The grid and list buttons. */
    method SetViewMode(mode: ViewMode)
      modifies this`viewMode
      ensures viewMode == mode
    {
      viewMode := mode;
    }

    /** The section select: the filtered lists stay as they were. */
    method SetFilterBy(f: FilterBy)
      modifies this`filterBy
      ensures filterBy == f
      ensures VisibleAuthors() == old(VisibleAuthors()) && VisibleArtworks() == old(VisibleArtworks())
    {
      filterBy := f;
    }

    /** The category select, which offers only the listed categories: the
        authors shown do not change. */
    method SetSelectedCategory(category: string)
      requires category in Categories
      modifies this`selectedCategory
      ensures selectedCategory == category
      ensures VisibleAuthors() == old(VisibleAuthors())
    {
      selectedCategory := category;
    }
  }
}
