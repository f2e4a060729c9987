# Art gallery front end: a Dafny model of its state and derivations

This project models the behaviour of the React components of an art-gallery
single-page application:

- the **theme customizer**, a store of 23 named style fields seeded from a
  default record. Controls edit one field at a time. A reset restores the
  defaults. The record is exported as a JSON document and imported from one,
  and the import does no validation. There is also an inert preview flag.
- the **gallery page**, which filters authors and artworks by a
  case-insensitive search and a category. It decides which result sections,
  count badges and "no results" card appear.
- the **admin panel's** two status mappings: badge variant and Bulgarian label.
- the **navigation bar's** hover submenus, its mobile menu and its star row.
- the **artwork card**: liked and hover flags, star rating, price line and
  purchase button.
- the **author card**: follow and like flags, follow button, category badges.

State that a component keeps in `useState` cells is a Dafny `class`. Each
handler is a method whose `ensures` gives the new value of every cell it may
change, and its `modifies` frame names the only cells it can touch. The
derived values (filters, visibility conditions, mappings, star rows) are
functions, and lemmas state their properties. Callback props such as
`onLike` are recorded, in order, as a list of the calls made.

`JSON.parse`, `JSON.stringify` and `String.prototype.toLowerCase` are
function-typed parameters, left uninterpreted. The model proves nothing that
would depend on how they behave beyond what a lemma's `requires` states.
Fixture data (the gallery's authors and artworks) is passed to the gallery's
constructor instead of being hard-coded.

Modules: `Wrappers` (Option), `Catalog` (the author and artwork records),
`Strings` (substring search), `Filter` (`Array.prototype.filter`),
`ThemeCustomizer`, `ArtGallery`, `AdminPanel`, `Stars`, `Navigation`,
`ArtworkCard`, `AuthorCard`.

Two properties one might expect of the settings record hold only in part:

- Every field is meant to always hold a value of its type. Update and reset
  keep this, but an import installs the parsed document as it is. The record
  can then lose fields, gain fields or hold values of the wrong type.
  `ImportUnchecked` and `IllTypedImportAccepted` show this.
- Exporting and then importing restores the record only when the parser
  reads back what the serializer wrote (`ExportImportRoundTrip`). The model
  does not assume this for every record, because JSON does not preserve
  every number: an imported `1e400` becomes `Infinity`, which export
  writes back as `null`.

## Model

| member | source | states |
|---|---|---|
| `ThemeCustomizer.DefaultsWellTyped` | client/src/components/ThemeCustomizer.tsx:13-74 | the default record has exactly the declared fields, and each holds a value of its declared type (string or number) |
| `ThemeCustomizer.Updated` | client/src/components/ThemeCustomizer.tsx:80-81 | after `{ ...prev, [key]: value }`, field `key` holds `value`, every other field is unchanged, and the key set gains at most `key` |
| `ThemeCustomizer.UpdateTwice` | client/src/components/ThemeCustomizer.tsx:81 | two successive updates of one field equal the second update alone |
| `ThemeCustomizer.UpdateSameValue` | client/src/components/ThemeCustomizer.tsx:81 | writing a field's current value back leaves the record equal to what it was |
| `ThemeCustomizer.UpdateWellTyped` | client/src/components/ThemeCustomizer.tsx:80-81 | on a well-typed record, updating a declared field keeps it well typed if and only if the value has that field's declared type |
| `ThemeCustomizer.ImportWithoutFile` | client/src/components/ThemeCustomizer.tsx:102-104 | when no file is selected, the import leaves the settings unchanged |
| `ThemeCustomizer.ImportOfText` | client/src/components/ThemeCustomizer.tsx:106-113 | a document that fails to parse leaves the settings unchanged; a document that parses replaces the whole record with the parsed object |
| `ThemeCustomizer.ImportUnchecked` | client/src/components/ThemeCustomizer.tsx:108-109 | after a successful parse, the record is well typed if and only if the parsed document was: nothing is checked |
| `ThemeCustomizer.IllTypedImportAccepted` | client/src/components/ThemeCustomizer.tsx:108-109 | there is a document the import installs as it is, yet it breaks the record: a numeric primary colour and no other field |
| `ThemeCustomizer.ExportImportRoundTrip` | client/src/components/ThemeCustomizer.tsx:90-113 | importing the exported text restores the exported record, from any current state, provided the parser reads back what the serializer wrote |
| `ThemeCustomizer.PreviewButtonLabel` | client/src/components/ThemeCustomizer.tsx:140 | the button reads "Изключи превю" if and only if preview is on, and "Включи превю" if and only if it is off |
| `ThemeCustomizer.Customizer.constructor` | client/src/components/ThemeCustomizer.tsx:77-78 | on mount, the settings are the defaults (well typed) and preview is off |
| `ThemeCustomizer.Customizer.UpdateSetting` | client/src/components/ThemeCustomizer.tsx:80-83 | only the settings cell changes, to the record with one field replaced; a well-typed record stays well typed exactly when the value has the field's type |
| `ThemeCustomizer.Customizer.HandleReset` | client/src/components/ThemeCustomizer.tsx:85-88 | from any state the settings become the defaults; the preview flag is outside the frame |
| `ThemeCustomizer.Customizer.HandleExport` | client/src/components/ThemeCustomizer.tsx:90-100 | offers `theme-settings.json` of type `application/json` holding the serialized settings; changes no state |
| `ThemeCustomizer.Customizer.HandleImport` | client/src/components/ThemeCustomizer.tsx:102-117 | only the settings change, to the import outcome for the chosen file and the parser |
| `ThemeCustomizer.Customizer.TogglePreview` | client/src/components/ThemeCustomizer.tsx:119-122 | preview is negated; the settings are outside the frame |
| `ThemeCustomizer.TogglePreviewTwice` | client/src/components/ThemeCustomizer.tsx:119-121 | toggling twice restores the preview flag and leaves the settings unchanged |
| `ThemeCustomizer.ExportThenImport` | client/src/components/ThemeCustomizer.tsx:90-117 | running the export handler and then the import handler on its file restores the settings from any state, provided the parser reads back what the serializer wrote; preview is unchanged |
| `ThemeCustomizer.ResetTwice` | client/src/components/ThemeCustomizer.tsx:85-87 | resetting twice gives the same record as resetting once, and preview is unchanged |
| `ThemeCustomizer.ExportResetImportScenario` | client/src/components/ThemeCustomizer.tsx:80-113 | start from the defaults, set the primary colour to "#00ff00", export, reset, import the export: the colour reads "#00ff00" and the record equals the exported one |
| `Strings.IncludesIffOccurs` | client/src/components/ArtGallery.tsx:97-98 | `includes` returns true exactly when the needle occurs at some position of the haystack |
| `Strings.EmptyIncluded` | client/src/components/ArtGallery.tsx:97 | every string includes the empty query |
| `Filter.Keep` | client/src/components/ArtGallery.tsx:96 | `filter` never lengthens its input; an element is in the result exactly when it is in the input and passes the predicate, and it keeps every copy of a passing element and no copy of a failing one |
| `Filter.KeepIsSubsequence` | client/src/components/ArtGallery.tsx:101 | the result of `filter` is an order-preserving sublist of its input |
| `Filter.KeepAll` | client/src/components/ArtGallery.tsx:96-106 | if every element passes, `filter` returns the input unchanged |
| `Filter.KeepMonotone` | client/src/components/ArtGallery.tsx:104 | when one predicate implies another, its result is an order-preserving sublist of the other's result |
| `ArtGallery.FilteredAuthors` | client/src/components/ArtGallery.tsx:96-99 | an author is kept exactly when the lower-cased query occurs in the lower-cased name or bio, with every copy the input holds, so the length the badge reads is fixed; the result is an order-preserving sublist and takes no category |
| `ArtGallery.FilteredArtworks` | client/src/components/ArtGallery.tsx:101-106 | an artwork is kept exactly when the query occurs in its title or artist and the category is "all" or equals its own, with every copy the input holds; the result is an order-preserving sublist |
| `ArtGallery.CategoryNarrows` | client/src/components/ArtGallery.tsx:104 | the artworks kept under any category form a sublist of those kept under "all" |
| `ArtGallery.EmptySearchKeepsEverything` | client/src/components/ArtGallery.tsx:96-106 | with an empty query and category "all", every author and every artwork is kept, in order |
| `ArtGallery.NoResultsShown` | client/src/components/ArtGallery.tsx:236-238 | for every section filter, the no-results card is shown exactly when neither the authors section nor the artworks section is shown |
| `ArtGallery.CountNoun` | client/src/components/ArtGallery.tsx:197 | a count badge uses the singular noun exactly when the count is 1, and the plural otherwise |
| `ArtGallery.AuthorsBadge` | client/src/components/ArtGallery.tsx:197 | the authors badge reads "автор" exactly for one author, and "автора" otherwise |
| `ArtGallery.ArtworksBadge` | client/src/components/ArtGallery.tsx:219 | the artworks badge reads "произведение" exactly for one artwork, and "произведения" otherwise |
| `ArtGallery.Gallery.constructor` | client/src/components/ArtGallery.tsx:22-25 | starts with an empty query, grid view, section filter "all" and category "all" |
| `ArtGallery.Gallery.Shown` | client/src/components/ArtGallery.tsx:192-238 | shows the authors section when the filter admits authors and one is kept (artworks likewise); the no-results card exactly when neither section is shown |
| `ArtGallery.Gallery.SetSearchQuery` | client/src/components/ArtGallery.tsx:130 | the query cell takes the typed text; no other cell changes |
| `ArtGallery.Gallery.SetViewMode` | client/src/components/ArtGallery.tsx:168-177 | the view cell takes the chosen mode; no other cell changes |
| `ArtGallery.Gallery.SetFilterBy` | client/src/components/ArtGallery.tsx:138 | the section filter takes the chosen value; both filtered lists are unchanged |
| `ArtGallery.Gallery.SetSelectedCategory` | client/src/components/ArtGallery.tsx:150 | the category takes the chosen value, one of the select's listed categories; the filtered authors are unchanged |
| `Catalog.OrFalse` | client/src/components/ArtworkCard.tsx:30 | defaulting an optional flag to false gives true exactly when the flag is present and true |
| `AdminPanel.StatusColor` | client/src/components/AdminPanel.tsx:69-83 | always one of "default", "secondary", "outline"; "default" exactly for active and published, "secondary" exactly for pending and review, "outline" for every other string |
| `AdminPanel.StatusText` | client/src/components/AdminPanel.tsx:85-102 | returns the status unchanged exactly when it is not one of the six known statuses; a known status gets the label listed at its position, which differs from the status |
| `AdminPanel.StatusTextInjectiveOnKnown` | client/src/components/AdminPanel.tsx:86-98 | two known statuses with the same label are the same status |
| `AdminPanel.StatusTextCollides` | client/src/components/AdminPanel.tsx:99-100 | over all strings the labelling is not injective: an unknown status spelled like a label collides with the status it labels |
| `Stars.RenderStars` | client/src/components/Navigation.tsx:111-117 | exactly five stars, where star `i` is filled if and only if `i < rating` |
| `Stars.FilledStars` | client/src/components/Navigation.tsx:111-113 | the number of filled stars is the rating's ceiling, cut to the range 0..5 |
| `Stars.WholeRatingFillsExactly` | client/src/components/Navigation.tsx:113 | a whole-number rating `r` between 0 and 5 fills exactly `r` stars |
| `Navigation.MenuTitlesDistinct` | client/src/components/Navigation.tsx:24-97 | the four menu titles are pairwise distinct |
| `Navigation.OnlyAboutLacksSubmenu` | client/src/components/Navigation.tsx:93-96 | an item lacks a submenu exactly when its title is "За нас" |
| `Navigation.AtMostOneSubmenuOpen` | client/src/components/Navigation.tsx:151 | no two distinct menu items have their submenus drawn at the same time |
| `Navigation.OpenSubmenus` | client/src/components/Navigation.tsx:134-151 | item `i`'s submenu is drawn exactly when it has one and its title is the active one; at most one is drawn |
| `Navigation.FeaturedStars` | client/src/components/Navigation.tsx:221 | the featured artwork's row has five stars, with the ceiling of its rating (cut to 0..5) filled |
| `Navigation.Nav.constructor` | client/src/components/Navigation.tsx:100-101 | starts with no open submenu and the mobile menu closed |
| `Navigation.Nav.MouseEnter` | client/src/components/Navigation.tsx:138 | entering an item with a submenu makes its title the active one; entering one without a submenu changes nothing |
| `Navigation.Nav.MouseLeave` | client/src/components/Navigation.tsx:107-109 | leaving any item closes the submenu |
| `Navigation.Nav.ToggleMobileMenu` | client/src/components/Navigation.tsx:239 | the mobile button negates the open flag |
| `Navigation.Nav.MobileLinkClick` | client/src/components/Navigation.tsx:257 | clicking any mobile link closes the mobile menu |
| `Navigation.EnterAbout` | client/src/components/Navigation.tsx:93-96 | entering "За нас" leaves the open submenu and the mobile flag unchanged |
| `ArtworkCard.OverlayOpacity` | client/src/components/ArtworkCard.tsx:78-79 | the overlay is fully opaque exactly while hovered, and transparent otherwise |
| `ArtworkCard.RatingStars` | client/src/components/ArtworkCard.tsx:54-61 | five stars, star `i` filled exactly when `i < rating`, so the ceiling of the rating (cut to 0..5) are filled |
| `ArtworkCard.ZeroPriceFooter` | client/src/components/ArtworkCard.tsx:149-163 | the footer as written shows two "0" texts for a price of 0, where nothing is intended; for every other price it matches the intended footer |
| `ArtworkCard.GuardAsWritten` | client/src/components/ArtworkCard.tsx:149 | `price && element` as written and drawn by React: nothing for an absent price, the text "0" for a price of 0, the element for any other price |
| `ArtworkCard.FooterAsWritten` | client/src/components/ArtworkCard.tsx:148-163 | the footer as written: two empty slots without a price, two "0" texts for a price of 0, price line and purchase button otherwise |
| `ArtworkCard.Guard` | client/src/components/ArtworkCard.tsx:149 | the corrected guard of the price-0 finding: the element appears exactly when the price is defined and non-zero, and otherwise nothing appears |
| `ArtworkCard.Footer` | client/src/components/ArtworkCard.tsx:148-163 | the corrected footer of the price-0 finding: price line and purchase button both appear when the price is defined and non-zero, and otherwise neither, nor any text |
| `ArtworkCard.Card.constructor` | client/src/components/ArtworkCard.tsx:30-31 | liked starts as the artwork's flag, or false when absent; not hovered; no calls yet |
| `ArtworkCard.Card.HandleLike` | client/src/components/ArtworkCard.tsx:33-37 | negates liked; calls `onLike` with the artwork's id when the prop is given; the hover flag is outside the frame |
| `ArtworkCard.Card.HandleView` | client/src/components/ArtworkCard.tsx:39-42 | leaves liked and hovered unchanged; calls `onView` with the id when given |
| `ArtworkCard.Card.HandleShare` | client/src/components/ArtworkCard.tsx:44-47 | leaves liked and hovered unchanged; calls `onShare` with the id when given |
| `ArtworkCard.Card.HandlePurchase` | client/src/components/ArtworkCard.tsx:49-52 | leaves liked and hovered unchanged; calls `onPurchase` with the id when given |
| `ArtworkCard.Card.MouseEnter` | client/src/components/ArtworkCard.tsx:66 | mouse-enter sets hovered |
| `ArtworkCard.Card.MouseLeave` | client/src/components/ArtworkCard.tsx:67 | mouse-leave clears hovered |
| `ArtworkCard.LikeTwice` | client/src/components/ArtworkCard.tsx:33-34 | liking twice restores the liked flag |
| `AuthorCard.FollowButton` | client/src/components/AuthorCard.tsx:108-116 | caption "Следван" and variant "secondary" exactly while following; "Следвай" and "default" exactly while not following |
| `AuthorCard.CategoryBadges` | client/src/components/AuthorCard.tsx:94-103 | exactly one badge per category, in list order, keyed by position, with no two keys equal |
| `AuthorCard.Card.constructor` | client/src/components/AuthorCard.tsx:26-27 | following starts as the author's flag, or false when absent; liked starts false; no calls yet |
| `AuthorCard.Card.HandleFollow` | client/src/components/AuthorCard.tsx:29-33 | negates following and leaves liked unchanged; calls `onFollow` with the author's id when given |
| `AuthorCard.Card.HandleLike` | client/src/components/AuthorCard.tsx:45-48 | negates liked, leaves following unchanged, calls no callback |
| `AuthorCard.Card.HandleView` | client/src/components/AuthorCard.tsx:35-38 | leaves both flags unchanged; calls `onView` with the id when given |
| `AuthorCard.Card.HandleShare` | client/src/components/AuthorCard.tsx:40-43 | leaves both flags unchanged; calls `onShare` with the id when given |
| `AuthorCard.FollowTwice` | client/src/components/AuthorCard.tsx:29-31 | following twice restores the flag and the follow button |

## Left out

- `ThemeCustomizer.DefaultsWellTyped`: does not state that there are exactly 23 fields. It states that the default keys equal the declared keys and that each value has its declared type. Counting the map's keys means comparing 23 string literals pairwise, and that proof goes beyond the solver's resource limit.
- The export's browser plumbing is not modelled: the Blob, the object URL, the anchor click and its revocation. The download is the file name, type and contents the handler hands over.
- The import's asynchronous file read is not modelled. The import happens in one step, taking the file's text as given.
- `JSON.stringify` and `JSON.parse` are parameters with no fixed behaviour. The text format of the export is not modelled.
- A parse result is an object (a map from field names to JSON values). A document whose top level is not an object, such as `42` or `"x"`, is also installed by the source. The model does not capture it.
- Numbers are Dafny reals. Floating-point rounding, `NaN`, infinities and `-0` are not modelled. The same goes for the `Math.round` percentage label and `toLocaleString` formatting.
- `toLowerCase` is an uninterpreted parameter. The empty-search lemma assumes only that it maps "" to "".
- Slider and select bounds and steps are not invariants of the store. The UI library enforces them, not `updateSetting`.
- The `previewMode` flag has no effect beyond its button label, and the model gives it none.
- Logging (`console.log`, `console.error`) is not modelled. The external callbacks are only recorded as a call with its argument.
- JSX layout, CSS classes, icons and the grid/list column classes are presentation. The model keeps only the view-mode cell.
- The admin panel's mock statistics and lists and its `activeTab` cell are fixtures and a library tab selector. The "apply changes" button has no handler.
- The pages (`Home`, `About`), the router wiring in `App`, and the example wrappers are static markup or fixtures.
- Navigation links route through the `wouter` library, which is not part of this model. The submenu avatars and images are not kept.

## Findings

| source | as written | input that shows it | evidently intended | confidence | as-written member | corrected member |
|---|---|---|---|---|---|---|
| client/src/components/ArtworkCard.tsx:149-163 | `{artwork.price && (...)}` guards the price line and the purchase button; for a price of 0 the expression yields the number 0, which React draws as the text "0" | an artwork with `price: 0` | a free item shows neither the price line nor the button, and no stray text | high (not executed) | `ArtworkCard.ZeroPriceFooter` | `ArtworkCard.Footer` |
