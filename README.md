# Gift-card storefront: cart, catalog filter, cart badge and theme

A Dafny model of the logic in a small Next.js gift-card storefront. It covers:

- **The in-memory cart store** (`lib/cart-storage.ts`). A class holding the list of cart lines and the id counter. It appends with a fresh id, finds the first line meeting a predicate, merges a partial update into the first line with an id, removes the first line with an id, and empties the list. The invariant: ids strictly increase along the list and all stay below the counter, so no two lines share an id.
- **The `/api/cart` handlers in memory mode** (`front_end/app/api/cart/route.ts`).
  - POST rejects a body with a falsy required field (400).
  - Otherwise it adds the posted quantity to the first line with the same card whose stored amount parses to the posted number (200), or appends a new line (201).
  - GET lists the lines. DELETE empties the cart.
  - Proved about an accepted POST: it keeps at most one line per (card, amount), and it raises the total quantity by exactly the posted quantity.
- **The catalog filter** (`app/cards/page.tsx`).
  - A card is shown when its category matches the selection (or the selection is "All") and its lower-cased name contains the lower-cased search term.
  - Proved: the result keeps catalog order, shows exactly the matching cards, shows everything for "All" with an empty term, and does not depend on the letter case of the term.
  - Also modelled: the "Showing N gift card(s)" line and the empty-state choice.
- **The cart badge** (`components/CartProvider.tsx`). `cartCount` starts at 0. A refresh sets it to the sum of `quantity` over the returned lines, and leaves it alone on failure or when the fetch throws.
- **The theme decision** (`lib/theme.ts`, `front_end/lib/theme.ts`) and **the theme provider** (`components/ThemeProvider.tsx`).
  - `getInitialTheme` decides from three inputs: no window, the saved value, and the system preference.
  - Each file's inline script makes its own decision, modelled separately.
  - The provider is a state machine over `theme` and `mounted`. Its apply effect keeps the `dark` class and the stored value in step with `theme`, and its toggle is an involution.

Environment reads are parameters:
- the clock (`new Date()`, `Date.now()`);
- `localStorage`, `matchMedia` and the document's class list;
- the outcome of `fetch`/`response.json()`.

Numbers (ids, card ids, amounts and quantities) are integers. A stored amount is its decimal text, and `parseFloat` of such a text is proved to give the number back (`NumberText.ParseIntegerText`).

The model follows the code where it departs from what a cart is usually expected to do:
- The POST guard checks truthiness only. A quantity of -1 or a negative amount is accepted, so quantities are not kept at 1 or more (`CartRoute.NegativeQuantityAccepted`).
- There is no per-call fallback from the database to memory. The mode is fixed at startup, and the database branch is not modelled.
- The merge test compares `parseFloat` of the stored text with the posted number. It does not compare two parsed decimals.

## Model

| member | source | states |
|---|---|---|
| `NumberText.IntegerText` | front_end/app/api/cart/route.ts:148 | the text `toString` gives an integral amount: non-empty, starting with '-' exactly when the number is negative, and digits after the sign |
| `NumberText.ParseInteger` | front_end/app/api/cart/route.ts:131 | `parseFloat` on a stored amount: a text of digits gives the number it denotes, and any number it gives comes from a non-empty text that starts with '-' when the number is negative |
| `NumberText.ParseIntegerText` | front_end/app/api/cart/route.ts:131-148 | parsing the text an integer amount is stored as gives that amount back, so a stored amount equals the posted one it came from |
| `CartItems.TotalQuantity` | components/CartProvider.tsx:23-26 | the `reduce` of quantities from 0; it is never negative when no line has a negative quantity |
| `CartItems.Merge` | lib/cart-storage.ts:81 | every field the update names is taken from the update, every other field keeps its value, and `updatedAt` becomes the clock reading |
| `CartItems.MergeQuantity` | front_end/app/api/cart/route.ts:136-138 | a quantity-only update changes the quantity and `updatedAt` and nothing else |
| `CartStorage.NewLine` | lib/cart-storage.ts:49-54 | the line `addToInMemoryCart` builds: the caller's six fields unchanged, plus the given id and the two clock readings |
| `CartStorage.CartStore.Valid` | lib/cart-storage.ts:29-57 | the store invariant that starting from one counter and `nextId++` on every push keeps: ids strictly increase along the list and stay below the counter; so no two lines share an id and no line has the id handed out next |
| `CartStorage.FindIndex` | lib/cart-storage.ts:92 | the result is -1 exactly when no line meets the predicate; otherwise it is the index of a line that meets it, and no earlier line does |
| `CartStorage.IdsDistinct` | lib/cart-storage.ts:50 | while ids increase along the list, no two lines share an id |
| `CartStorage.FindIndexOfOwnId` | lib/cart-storage.ts:77 | while ids increase, the first line with the id of line k is line k |
| `CartStorage.FindIndexAppend` | lib/cart-storage.ts:48-67 | after a line is pushed, `find` still answers the old first match when there was one, else the pushed line if it matches, else nothing |
| `CartStorage.AddedLineFoundById` | lib/cart-storage.ts:48-83 | while ids increase, the line `addToInMemoryCart` pushes with the next id is the first line with that id, so a later lookup by its id lands on it |
| `CartStorage.RemoveKeepsIds` | lib/cart-storage.ts:95 | removing one line keeps ids increasing and below the counter |
| `CartStorage.CartStore.constructor` | lib/cart-storage.ts:23-29 | the store starts empty, its counter starts at an arbitrary natural (the startup clock), and the id invariant holds |
| `CartStorage.CartStore.GetAll` | lib/cart-storage.ts:36-38 | returns the stored lines and changes nothing |
| `CartStorage.CartStore.Add` | lib/cart-storage.ts:48-57 | appends exactly one line at the end, carrying the caller's fields; its id is the old counter and the counter grows by 1; earlier lines are untouched and the id invariant is kept |
| `CartStorage.CartStore.Find` | lib/cart-storage.ts:65-67 | returns nothing exactly when no line meets the predicate, else the first line that does; never changes the store |
| `CartStorage.CartStore.Update` | lib/cart-storage.ts:76-83 | on an absent id returns nothing and changes nothing; otherwise replaces only the first line with that id by the merge of the update and returns it; the length and all other lines stay; the counter is untouched |
| `CartStorage.CartStore.Remove` | lib/cart-storage.ts:91-97 | returns false and changes nothing when the id is absent; otherwise removes exactly the first line with that id, keeps the order of the rest, and returns true |
| `CartStorage.CartStore.Clear` | lib/cart-storage.ts:103-105 | leaves the list empty whatever it held, so clearing twice is clearing once; does not reset the counter |
| `CartRoute.MissingRequiredField` | front_end/app/api/cart/route.ts:78 | the guard's falsy test; a body that passes it has all six fields, and a 0 card id, amount or quantity fails it |
| `CartRoute.SameCardAndAmount` | front_end/app/api/cart/route.ts:131 | the merge test for one line: it accepts only lines of the posted card, and two lines of the same card whose amounts parse to the same number are accepted or refused together |
| `CartRoute.MergeOrCreate` | front_end/app/api/cart/route.ts:130-152 | the cart after an accepted POST: the first line of the posted card and amount gets the posted quantity added, and without one a new line is appended; the length grows by one exactly when there was no match |
| `CartRoute.Validate` | front_end/app/api/cart/route.ts:78-83 | rejects a body exactly when some required field is missing, 0 or the empty string; an accepted body's fields are carried over unchanged |
| `CartRoute.NegativeQuantityAccepted` | front_end/app/api/cart/route.ts:78 | the guard tests truthiness only: a quantity of -1 passes |
| `CartRoute.NewLineMatches` | front_end/app/api/cart/route.ts:143-150 | the line POST creates has the posted fields, and its stored amount text parses back to the posted amount |
| `CartRoute.PostKeepsOneLinePerKey` | front_end/app/api/cart/route.ts:130-152 | if the cart held at most one line per (card, amount) before an accepted POST, it still does afterwards |
| `CartRoute.PostAddsQuantity` | front_end/app/api/cart/route.ts:130-152 | an accepted POST raises the sum of quantities by exactly the posted quantity |
| `CartRoute.KeyQuantityOfOnlyLine` | front_end/app/api/cart/route.ts:130-152 | while the cart holds at most one line per (card, amount), the quantity summed over the lines with a key is the quantity of the line `find` returns for it, or 0 when there is none |
| `CartRoute.PostAddsKeyQuantity` | front_end/app/api/cart/route.ts:130-152 | an accepted POST adds its quantity to its own (card, amount) and leaves the quantity of every other key unchanged |
| `CartRoute.PostKeyHasLine` | front_end/app/api/cart/route.ts:130-152 | after an accepted POST a key has a line exactly when it had one before or is the posted key |
| `CartRoute.AfterPostsKeyQuantity` | front_end/app/api/cart/route.ts:55-152 | over any run of accepted POSTs, each key's quantity grows by the sum of the quantities posted for it |
| `CartRoute.AfterPostsKeyHasLine` | front_end/app/api/cart/route.ts:55-152 | over any run of accepted POSTs, a key has a line exactly when it had one at the start or was posted |
| `CartRoute.AfterPostsOneLinePerKey` | front_end/app/api/cart/route.ts:55-152 | over any run of accepted POSTs, a cart with at most one line per key keeps that property |
| `CartRoute.PostsFromEmptyCart` | front_end/app/api/cart/route.ts:55-152 | starting from an empty cart, after any run of accepted POSTs each (card, amount) has a line exactly when it was posted, that line is its only one, and its quantity is the sum of the quantities posted for it |
| `CartRoute.PostChangesOneLine` | front_end/app/api/cart/route.ts:130-152 | with a match, the first matching line's quantity becomes old plus posted and no line is added; without one, exactly one line is appended; all other lines are unchanged |
| `CartRoute.PostAnswersFirstMatch` | front_end/app/api/cart/route.ts:135-152 | after an accepted POST, the first line with the posted card and amount is the merged line or the new last line |
| `CartRoute.RepeatedPostMerges` | front_end/app/api/cart/route.ts:57-59 | a second POST with the same card and amount finds a match and adds no line |
| `CartRoute.TwoPostsOfOneCardAndAmount` | front_end/app/api/cart/route.ts:130-140 | posting card 5 at amount 10 with quantity 1 and then 2 gives one line of quantity 3 |
| `CartRoute.TwoAmountsOfOneCard` | front_end/app/api/cart/route.ts:143-152 | posting card 5 at amounts 10 and then 25 gives two lines |
| `CartRoute.Get` | front_end/app/api/cart/route.ts:44 | answers 200 with `success: true` and the stored lines; changes nothing |
| `CartRoute.Post` | front_end/app/api/cart/route.ts:72-159 | an unreadable body gives 500, a falsy field gives 400, and neither changes the store; an accepted body changes the store by the merge-or-create rule and answers 200 (merged) or 201 (created) with the affected line; the total quantity grows by the posted quantity; the one-line-per-(card, amount) invariant and the id invariant hold afterwards |
| `CartRoute.Delete` | front_end/app/api/cart/route.ts:179-180 | empties the cart, an empty one too, and answers success |
| `CardsPage.FilterCards` | app/cards/page.tsx:135-142 | `allGiftCards.filter(...)`: no more cards than the catalog, each shown card taken from it and passing both the category test and the lower-cased search test |
| `CardsPage.ToLower` | app/cards/page.tsx:138-140 | lower-cases every ASCII letter and keeps the length |
| `CardsPage.FilterIsSubsequence` | app/cards/page.tsx:135 | the shown cards are a subsequence of the catalog, in catalog order |
| `CardsPage.FilterExactlyMatching` | app/cards/page.tsx:135-142 | a card is shown exactly when it is in the catalog, matches the category unless "All" is selected, and its lower-cased name contains the lower-cased term (soundness and completeness) |
| `CardsPage.AllWithEmptyTermShowsEverything` | app/cards/page.tsx:136-140 | with "All" and an empty term every card is shown |
| `CardsPage.EmptyTermMatches` | app/cards/page.tsx:138-140 | every name contains the empty term |
| `CardsPage.FilterDependsOnLowerCaseTerm` | app/cards/page.tsx:138-140 | two terms that lower-case alike select the same cards |
| `CardsPage.FilterIgnoresCase` | app/cards/page.tsx:138-140 | upper-casing or lower-casing the term does not change what is shown |
| `CardsPage.GamingCategory` | app/cards/page.tsx:135-142 | on the page's catalog, "Gaming" with no search shows Steam and Xbox but not Amazon |
| `CardsPage.EveryCardHasItsCategoryButton` | app/cards/page.tsx:120-142 | every catalog card's category is one of the category buttons after "All", and selecting it with no search shows the card |
| `CardsPage.EveryCategoryButtonShowsACard` | app/cards/page.tsx:120-142 | with no search, no category button (including "All") shows an empty list of cards |
| `CardsPage.SearchIgnoresCaseOnCatalog` | app/cards/page.tsx:135-142 | on the page's catalog, the search "PLAY" finds Google Play and PlayStation but not Amazon |
| `CardsPage.ResultLine` | app/cards/page.tsx:193-196 | the result line ends in the plural "s" exactly when the count is not 1 |
| `CardsPage.ListingOf` | app/cards/page.tsx:199-211 | the empty-state message is shown exactly when no card is shown; otherwise the grid holds the shown cards |
| `CartProvider.CountAfterRefresh` | components/CartProvider.tsx:18-31 | the badge after one refresh: it either keeps its value or becomes the quantity sum of the received items, and a successful answer with items always sets that sum |
| `CartProvider.CartCounter.constructor` | components/CartProvider.tsx:16 | the count starts at 0 |
| `CartProvider.CartCounter.RefreshCartCount` | components/CartProvider.tsx:18-32 | on a successful answer with lines, the count becomes their quantity sum; on a failed answer, or when the fetch, parse or fold throws, the count is unchanged |
| `CartProvider.RefreshShowsStoreTotal` | components/CartProvider.tsx:22-27 | refreshing from the in-memory GET shows the store's total quantity |
| `CartProvider.EmptyCartShowsZero` | components/CartProvider.tsx:23-26 | an empty cart shows 0 |
| `CartProvider.FailureKeepsCount` | components/CartProvider.tsx:22-31 | an answer with `success` false, or a throwing fetch, leaves the count unchanged |
| `CartProvider.RefreshAfterPostGrowsByQuantity` | components/CartProvider.tsx:18-27 | after an accepted POST of quantity q, the refreshed badge is q higher than before the POST |
| `RootTheme.GetInitialTheme` | lib/theme.ts:3-18 | light on the server; in the browser a saved "light" or "dark" is the theme, and otherwise the theme is dark exactly when the system prefers dark |
| `RootTheme.ScriptAddsDark` | lib/theme.ts:23-26 | the inline script adds the `dark` class: for a non-empty saved string exactly when it is "dark", and with nothing saved (or an empty string) exactly when the system prefers dark |
| `RootTheme.ServerIsLight` | lib/theme.ts:4-6 | with no window the initial theme is light |
| `RootTheme.SavedThemeWins` | lib/theme.ts:8-11 | a saved "light" or "dark" is returned whatever the system prefers |
| `RootTheme.InvalidSavedValueIgnored` | lib/theme.ts:13-17 | any other saved value, or none, is ignored: the system preference decides between dark and light |
| `RootTheme.InitialThemeIsDark` | lib/theme.ts:3-18 | the initial theme is dark exactly when a browser saved "dark", or saved no valid theme and prefers dark |
| `RootTheme.ScriptDisagreement` | lib/theme.ts:20-29 | the script and `getInitialTheme` disagree on the dark class exactly when a non-empty saved value names no theme and the system prefers dark |
| `RootTheme.ScriptIgnoresPreferenceForBlue` | lib/theme.ts:23-26 | a saved "blue" with a dark system preference: the script adds no dark class, yet `getInitialTheme` returns dark |
| `FrontEndTheme.GetInitialTheme` | front_end/lib/theme.ts:33-52 | light on the server; in the browser a saved "light" or "dark" is the theme, and otherwise the theme is dark exactly when the system prefers dark |
| `FrontEndTheme.ScriptAddsDark` | front_end/lib/theme.ts:78-84 | the validating script adds the `dark` class: for a saved "light" or "dark" exactly when it is "dark", and for any other saved value or none exactly when the system prefers dark |
| `FrontEndTheme.SavedThemeWins` | front_end/lib/theme.ts:40-43 | a saved "light" or "dark" is returned as it is, whatever the system prefers |
| `FrontEndTheme.InvalidSavedValueIgnored` | front_end/lib/theme.ts:46-51 | an invalid or missing saved value falls through to the system preference |
| `FrontEndTheme.ScriptAgreesWithInitialTheme` | front_end/lib/theme.ts:75-87 | in every browser state, the script adds the dark class exactly when `getInitialTheme` returns dark |
| `FrontEndTheme.SameAsRootInitialTheme` | front_end/lib/theme.ts:33-52 | this `getInitialTheme` decides exactly as the one in `lib/theme.ts` |
| `ThemeProvider.ToggledTheme` | components/ThemeProvider.tsx:88-90 | toggling maps light to dark and dark to light |
| `ThemeProvider.ToggleTwice` | components/ThemeProvider.tsx:89 | toggling twice restores the theme |
| `ThemeProvider.UseTheme` | components/ThemeProvider.tsx:120-128 | fails with the provider error exactly when no provider value is present; otherwise returns that value |
| `ThemeProvider.Provider.constructor` | components/ThemeProvider.tsx:51-54 | the provider starts with the light theme and not mounted |
| `ThemeProvider.Provider.MountEffect` | components/ThemeProvider.tsx:60-63 | sets `mounted` and takes the initial theme from the stored value and the system preference; the document and storage are untouched |
| `ThemeProvider.Provider.ApplyEffect` | components/ThemeProvider.tsx:69-83 | before mounting, touches neither the class list nor storage; once mounted, the document has the `dark` class exactly when the theme is dark, and the stored "theme" equals the theme |
| `ThemeProvider.Provider.ToggleTheme` | components/ThemeProvider.tsx:88-90 | flips the theme and changes nothing else, so a mounted page whose `dark` class and stored theme followed the theme no longer does until the apply effect runs again |

## Left out

- The database branches of GET, POST and DELETE (Drizzle over a Neon connection) are network I/O. They are not modelled, and neither are the `lib/db` modules. In particular the database merge looks only at a 10-row, unordered query result, so a matching line outside it would be duplicated. The model does not capture that.
- The 500 answers of GET and DELETE are not modelled. In memory mode nothing in those branches throws, and logging is left out. The 500 of POST is modelled for a body that cannot be read.
- The PATCH and DELETE handlers of `app/api/cart/[id]/route.ts` are not part of this model: their id parsing, their `quantity >= 1` check and their 400/404/500 answers. Their in-memory calls are modelled as store methods. PATCH calls `updateInMemoryCartItem(id, { quantity })`, which is `CartStorage.CartStore.Update` with an update that names no `id`. DELETE calls `removeFromInMemoryCart(id)`, which is `CartStorage.CartStore.Remove`. Both methods keep `CartStore.Valid()`, which `CartRoute.Post` requires. A PATCH replaces a line's quantity and a removal drops a line, so `CartRoute.PostsFromEmptyCart` describes only runs made of POSTs.
- The store is one process-wide list shared by all requests. The model is one object used sequentially, with no concurrency.
- The store functions hand out the stored objects themselves, and the model returns values, so aliasing through those references is not captured. `getInMemoryCart` returns the live array, and `findInMemoryCartItem` returns a stored line. `addToInMemoryCart` returns the object it pushed (lib/cart-storage.ts:55-56), and `updateInMemoryCartItem` returns the line it merged into in place (lib/cart-storage.ts:81-82). So POST's `updated` (front_end/app/api/cart/route.ts:136-139) and its `newItem` are the stored lines too.
- Number fields are integers. Floating point is not modelled: no fractional amounts or quantities, no `NaN` or infinities, no loss of precision above 2^53, and no exponent form of `toString`.
- NumberText.ParseInteger: models `parseFloat` only on texts made of an optional minus sign and digits; any other text answers "no number". `parseFloat` itself would accept leading whitespace, a plus sign, fractions, exponents and trailing text. Every amount the modelled code stores is such a text.
- Request fields have fixed types. A JSON body that sends a number field as a string is not modelled (strict equality would then never merge). `Update` is modelled for any partial record, but a field present with the value `undefined` is treated as absent.
- The time stamps are the caller's clock readings. Nothing orders two readings, so `createdAt <= updatedAt` is not claimed.
- The catalog's other pages and components are not part of this model. That covers the detail page, grids, headers, footers, contact pages, layouts, animations and hooks, as well as the alerts and logging in `GiftCardItem` and `CartProvider`. Only the catalog array of `app/cards/page.tsx` is transcribed, as a constant.
- CardsPage.ToLower: lower-cases ASCII letters only, whereas `toLowerCase` follows Unicode case mapping.
- The theme effects throw when `localStorage` is unavailable. That is not modelled; the inline scripts swallow such errors, and a script either adds the class or does not.
- React's scheduling is not modelled: when effects run, stale closures, re-renders. Each effect is a method, and the React context wiring is left out. ThemeProvider.Provider.MountEffect always reads the browser branch of `getInitialTheme`, because effects run only in the browser.

## Findings

| source | as written | input that shows it | evidently intended | confidence | as-written member | corrected member |
|---|---|---|---|---|---|---|
| lib/theme.ts:20-29 | the inline script takes any non-empty saved string as the theme (`getItem('theme') \|\| …`), while `getInitialTheme`, which the provider mounts with, accepts only "light" or "dark" | saved theme "blue", system prefers dark: the script adds no `dark` class, then the provider switches to dark after mounting (the flash the script exists to prevent) | the script validates the saved value as `getInitialTheme` does, as the same script in `front_end/lib/theme.ts` does | not executed; low impact, since only a foreign write can store such a value | `RootTheme.ScriptIgnoresPreferenceForBlue` | `FrontEndTheme.ScriptAgreesWithInitialTheme` |
