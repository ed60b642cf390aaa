# Invoices and estimates: store, catalog and page logic

This project models the sequential core of a small invoice and estimate editor, and proves properties of the model. The core has six parts:

- **The document store** (`src/data/docsStore.js`). A module-level `Map` from document id to document record.
  - `createDocFromTemplate` builds a fixed default record and stores it under a fresh id.
  - `getDoc` looks a record up, returning null when the id is absent.
  - `updateDoc` shallow-merges a patch into the stored record and stamps `lastEditedAt`.
  - It also holds the small string helpers `defaultTitle`, `defaultNotes`, `defaultTerms` and `capitalize`.
  - The model is the class `DocsStore.Store`, whose field `docs` is a `map<string, Record>`.
  - The clock and the UUID generator are parameters: `now` and the fresh ids.
- **The template catalog** (`src/data/templates.js`). The four industries and the two construction templates, as datatypes, with the two lookups: by industry and by id.
- **The editor page** (`src/pages/EditorPage.jsx`):
  - the line-item total, the estimate total with its `pricing.totalCost` override, and the per-line amount;
  - `setLineItem` and the five nested shallow-merge setters;
  - `patchDoc`, which writes through the store and then replaces the page's state with the result. This is the class `EditorPage.Editor`.
- **The two list pages** (`app/home/page.jsx`, `src/pages/HomePage.jsx`):
  - the case-insensitive title search they share (module `DocList`);
  - the count line, empty states and card menu of the first page (module `AppHome`, where the menu state is the class `AppHome.CardMenu`);
  - the industry line and empty message of the second page (module `HomePage`).
- **The sign-in page** (`app/login/page.jsx`): `friendlyError`, and the error state each sign-in handler leaves, including the silent closed popup.

JavaScript values are the datatype `Values.Value`. A plain object is a `map<string, Value>`, and object spread is map union. `Number()` on a string is an abstract parameter `parse: string -> Option<real>`, where `None` stands for NaN or a non-finite result. Numbers are exact reals. Case mapping and `trim` follow the ECMAScript rules restricted to ASCII letters, with the full ECMAScript white-space set. A TypeError thrown by the source is modelled in one of two ways:

- as `None`, where the code can be written so that it throws (a non-array `lineItems`, a null line, an industry that is not a string);
- as a precondition, where the callers shown never make it happen (titles of searched records are text).

Where the intended design and the code differ, the model follows the code. `createDocFromTemplate` never resolves its template: it sets no `docType`, `meta`, `show` or document number, and always makes one "Service item" line. `NewDocKeysExact` proves this, and `EditorPage.NewDocShowsNoLayout` proves that the editor therefore shows neither layout for a fresh record.

## Model

| member | source | states |
|---|---|---|
| DocsStore.Capitalize | src/data/docsStore.js:71-73 | `capitalize` keeps the length; on a non-empty string the first character is upper-cased and the rest is kept |
| DocsStore.CapitalizeShape | src/data/docsStore.js:71-73 | `capitalize` keeps the length, upper-cases the first character, keeps every other character, and leaves "" alone |
| DocsStore.CapitalizeIdempotent | src/data/docsStore.js:71-73 | capitalizing twice equals capitalizing once |
| DocsStore.DefaultTitleShape | src/data/docsStore.js:53-57 | the title is the prefix "Estimado — " for "es" and "Estimate — " otherwise, then one character per slug character: every `-` becomes a space (a leading one included), no `-` remains, and a first letter is upper-cased |
| DocsStore.DefaultTitle | src/data/docsStore.js:53-57 | the title starts with the language's prefix and is one character longer than the prefix per slug character |
| DocsStore.DefaultNotes | src/data/docsStore.js:59-63 | the notes are the Spanish text if and only if the language is "es", and the English text if and only if it is not |
| DocsStore.DefaultTerms | src/data/docsStore.js:65-69 | the terms are the Spanish text if and only if the language is "es", and the English text if and only if it is not |
| DocsStore.EffectiveLanguage | src/data/docsStore.js:4 | the default "en" applies exactly when no language is passed; any other value, null included, is kept |
| DocsStore.DocLiteral | src/data/docsStore.js:9-29 | the record literal has exactly the twelve default keys |
| DocsStore.NewDoc | src/data/docsStore.js:9-29 | a new record is a draft with `createdAt == lastEditedAt == now` |
| DocsStore.NewDocKeysExact | src/data/docsStore.js:9-29 | a new record has exactly the default keys: no `docType`, `meta`, `company`, `job` or `pricing` |
| DocsStore.NewDocProvenance | src/data/docsStore.js:10-12 | a new record holds the id, industry and template id it was made with |
| DocsStore.NewDocClientAndItems | src/data/docsStore.js:18-26 | a new record has the four client fields, all empty, and exactly one line "Service item" with the given id, qty 1, rate 100 |
| DocsStore.NewDocTexts | src/data/docsStore.js:13-15 | the stored language, title, notes and terms all follow the effective language |
| DocsStore.NewDocDefaultsToEnglish | src/data/docsStore.js:4 | without a language the record is English: language "en", English notes, terms and title prefix |
| DocsStore.Updated | src/data/docsStore.js:43-47 | the merged record's keys are the old keys, the patch keys and `lastEditedAt`; patch fields override, other old fields stay, and `lastEditedAt` is `now` even when the patch sets it |
| DocsStore.UpdatedIdempotent | src/data/docsStore.js:43-47 | merging the same patch at the same time twice equals merging it once |
| DocsStore.UpdatedCompose | src/data/docsStore.js:43-47 | two successive updates equal one update with the later patch laid over the earlier one, stamped with the later time |
| DocsStore.TitlePatchChangesOnlyTitle | src/data/docsStore.js:43-47 | a title-only patch changes the title and `lastEditedAt` and no other field |
| DocsStore.Store.constructor | src/data/docsStore.js:2 | the store starts empty, and every stored record carries its own key as `id` |
| DocsStore.Store.GetDoc | src/data/docsStore.js:35-37 | the record stored under the id, or None exactly when the id is absent |
| DocsStore.Store.CreateDocFromTemplate | src/data/docsStore.js:4-33 | the new record is stored under its id and returned, and `getDoc(id)` then returns it; for a fresh id every earlier entry is unchanged; the records keep their keys as ids |
| DocsStore.Store.UpdateDoc | src/data/docsStore.js:39-51 | an unknown id gives None and leaves the table unchanged; a known id gives the merged record, which is stored and then returned by `getDoc`; other ids are untouched; ids stay consistent when the patch has no `id` |
| Templates.Industries | src/data/templates.js:2-7 | four industries with pairwise distinct slugs |
| Templates.Catalog | src/data/templates.js:11-81 | ids are pairwise distinct; `show.estimateNumber` and `show.invoiceNumber` each hold if and only if the document type matches; only invoices show a due date; every template starts with "Labor" and "Materials", qty 1, rate 0; every template's industry is listed |
| Templates.GetTemplatesByIndustry | src/data/templates.js:83-85 | exactly the catalog entries of that industry, as an order-preserving subsequence of the catalog |
| Templates.GetTemplateById | src/data/templates.js:87-89 | None if and only if no entry has the id; otherwise the first entry with the id |
| Templates.GetTemplateByIdExact | src/data/templates.js:87-89 | because ids are distinct, the lookup returns entry k if and only if entry k has the id |
| Templates.OnlyConstructionHasTemplates | src/data/templates.js:83-85 | every listed industry other than construction has no templates |
| Templates.ConstructionTemplates | src/data/templates.js:83-85 | construction lists the whole catalog, in catalog order |
| EditorPage.LineAmount | src/pages/EditorPage.jsx:450 | a line's amount is defined exactly when the line is not null or undefined |
| EditorPage.LineAmountOfNumbers | src/pages/EditorPage.jsx:450 | a line whose qty and rate read as numbers shows, and adds, their product |
| EditorPage.UnreadableLineAddsNothing | src/pages/EditorPage.jsx:21 | a line whose qty or rate is not a number contributes 0 |
| EditorPage.Reduce | src/pages/EditorPage.jsx:20-23 | the `reduce` succeeds if and only if no line is nullish, and then equals the start value plus the sum of the line amounts |
| EditorPage.LineItemsOf | src/pages/EditorPage.jsx:19 | a falsy `lineItems` reads as no lines, an array as its elements, and anything else fails |
| EditorPage.TotalFromItems | src/pages/EditorPage.jsx:18-24 | the item total is 0 without a document or without lines; otherwise it is defined exactly when `lineItems` is an array (or falsy) and no line is null or undefined, and then equals the sum of the line amounts |
| EditorPage.EstimateTotal | src/pages/EditorPage.jsx:26-30 | a total cost that reads as a finite number wins; otherwise the item total; it fails exactly when the item total does |
| EditorPage.EstimateWithoutTotalCost | src/pages/EditorPage.jsx:26-30 | without a `pricing.totalCost` the estimate total is the item total |
| EditorPage.TotalCostOverridesExample | src/pages/EditorPage.jsx:18-30 | lines 2×50 and 1×30 total 130, and a total cost "200" makes the estimate 200 |
| EditorPage.BlankTotalCostHidesItems | src/pages/EditorPage.jsx:26-30 | as written, a cleared total cost "" makes the estimate 0 while the lines total 100 |
| EditorPage.EstimateTotalIntended | src/pages/EditorPage.jsx:26-30 | corrected: a blank or whitespace-only total cost falls back to the item total; every other case equals the estimate total as written |
| EditorPage.BlankTotalCostFallsBack | src/pages/EditorPage.jsx:26-30 | with the correction, the same cleared field shows the lines' total 100 |
| EditorPage.MergeItem | src/pages/EditorPage.jsx:63 | a line with another id is returned as it is; a line with the id becomes an object with the union of its keys and the patch's, the patch's values winning |
| EditorPage.SetLineItems | src/pages/EditorPage.jsx:61-66 | defined exactly when no line is nullish; same length and order; lines with a different id are unchanged; lines with the id hold the patch over their own properties, with the union of both key sets |
| EditorPage.MergeItemIdempotent | src/pages/EditorPage.jsx:63 | merging the same patch into a line twice equals merging it once |
| EditorPage.SetLineItemsIdempotent | src/pages/EditorPage.jsx:61-66 | setting the same fields on the same item twice equals setting them once |
| EditorPage.SetLineItemsKeepsOtherAmounts | src/pages/EditorPage.jsx:61-66 | the amount of every line with a different id is unchanged |
| EditorPage.LineItemsPatch | src/pages/EditorPage.jsx:61-66 | the patch has the single key `lineItems`, holds the lines `SetLineItems` makes from the old ones (as many, in order), and exists exactly when the lines can be read |
| EditorPage.SetLineItemEffect | src/pages/EditorPage.jsx:50-66 | after `setLineItem` and the store merge, matching lines hold the patch over their own properties, other lines are identical, the order and length are kept, and no top-level field but `lineItems` and `lastEditedAt` changes |
| EditorPage.SectionPatch | src/pages/EditorPage.jsx:55-59 | each setter's patch touches only its own key |
| EditorPage.NestedSetterEffect | src/pages/EditorPage.jsx:55-59 | after a nested setter the sub-object's keys are its old ones plus the patch's (a missing or falsy sub-object counts as empty); patched keys take the patch's values, the others keep theirs; no top-level field but that key and `lastEditedAt` changes |
| EditorPage.NewDocShowsNoLayout | src/pages/EditorPage.jsx:47-48 | a record fresh from the store is neither an estimate nor an invoice to the editor |
| EditorPage.NewDocTotals | src/pages/EditorPage.jsx:18-30 | a fresh record totals 100 in the item, estimate and corrected estimate totals |
| EditorPage.Editor.constructor | src/pages/EditorPage.jsx:13-16 | on mount the page's state is `getDoc(docId)` |
| EditorPage.Editor.PatchDoc | src/pages/EditorPage.jsx:50-53 | the store gets the merged record, or no change for an unknown id, and the page's state becomes what the store returned |
| EditorPage.Editor.SetSection | src/pages/EditorPage.jsx:55-59 | the state and the store both hold the record merged with the section's patch |
| EditorPage.Editor.SetLineItem | src/pages/EditorPage.jsx:61-66 | the state and the store both hold the record merged with the `lineItems` patch |
| EditorPage.Editor.EstimatePlaceholder | src/pages/EditorPage.jsx:360 | the placeholder is the estimate total as written: a total cost that reads as a number wins, even a cleared one; otherwise the item total; defined exactly when the item total is |
| EditorPage.Editor.IntendedPlaceholder | src/pages/EditorPage.jsx:360 | corrected: a blank or whitespace-only total cost shows the item total; every other case equals the placeholder as written |
| EditorPage.Editor.InvoiceTotal | src/pages/EditorPage.jsx:459 | the invoice total is the item total: defined exactly when the lines can be read, and then the sum of the line amounts |
| EditorPage.InvoiceTotalIgnoresPricing | src/pages/EditorPage.jsx:459 | two editors whose records differ only in `pricing` show the same invoice total |
| EditorPage.ClearedTotalCostPlaceholder | src/pages/EditorPage.jsx:360 | with a cleared total cost and lines totalling 100, the page's placeholder reads 0 and the corrected one 100 |
| EditorPage.FreshEditorShowsNoLayout | src/pages/EditorPage.jsx:47-48 | an editor holding a record fresh from the store shows neither the estimate nor the invoice layout |
| Values.ToNumber | src/pages/EditorPage.jsx:21 | `Number(v)`: a number reads as itself, a string through the parser, `undefined` as NaN, `null` as 0, and a boolean as 1 or 0 |
| Values.NumberOrZero | src/pages/EditorPage.jsx:21 | `Number(v) \|\| 0`: NaN reads as 0, every other number as itself |
| Values.SpreadOrEmpty | src/pages/EditorPage.jsx:55 | `{...(v \|\| {})}` copies the same properties as `{...v}` |
| Text.Trim | app/home/page.jsx:40 | the trimmed string is empty if and only if the input is all white space, and otherwise starts and ends with a non-space |
| Text.TrimIsInfix | app/home/page.jsx:40 | the trimmed string occurs in the input right after the leading white space, and every character before and after it is white space |
| Text.Lower | app/home/page.jsx:40 | lower-casing keeps the length and maps each character |
| Text.Contains | app/home/page.jsx:42 | `includes` holds if and only if the query occurs at some index |
| Text.ReplaceChar | src/data/docsStore.js:54 | `replaceAll` of one character keeps the length and maps each occurrence |
| DocList.Query | app/home/page.jsx:40 | the search query is empty if and only if the raw query is all white space |
| DocList.Filtered | app/home/page.jsx:39-43 | a blank query lists everything; otherwise the result is an order-preserving subsequence whose records all match, and every matching record is kept as many times as it occurs (src/pages/HomePage.jsx:11-15 is the same code) |
| DocList.FilteredIdempotent | app/home/page.jsx:39-43 | searching the result again with the same query changes nothing |
| DocList.KeptIffMatches | app/home/page.jsx:42 | a record is in the result if and only if its lower-cased title contains the query |
| DocList.UntitledMatchesOnlyBlank | app/home/page.jsx:42 | a record without a title matches only the blank query |
| DocList.DisplayTitle | app/home/page.jsx:140 | a missing or empty title shows as "Untitled", any other as itself, and the shown title is always truthy (src/pages/HomePage.jsx:56 is the same) |
| AppHome.CountLabel | app/home/page.jsx:89 | the label is the count's digits followed by " doc" for one and " docs" otherwise |
| AppHome.CountLabelPlural | app/home/page.jsx:89 | the label ends in "docs" if and only if the count is not 1 |
| AppHome.CountLabelInjective | app/home/page.jsx:89 | different counts give different labels |
| AppHome.CountLine | app/home/page.jsx:87-91 | the count line is shown exactly when there is at least one record, and counts the search result |
| AppHome.EmptyStateText | app/home/page.jsx:158-168 | the no-match text quotes the query exactly as typed; the no-documents text is "No documents yet. Hit + to create one." |
| AppHome.EmptyStateOf | app/home/page.jsx:158-168 | "No documents yet" exactly when there are no records; "No docs match" exactly when there are records and none is listed; it carries the query |
| AppHome.NoMatchNeedsQuery | app/home/page.jsx:158 | "No docs match" only ever follows a query that is not blank |
| AppHome.NextMenu | app/home/page.jsx:111 | clicking a card's button closes its open menu, and otherwise opens the menu for that card |
| AppHome.ToggleFlips | app/home/page.jsx:111 | for a non-null id, a click opens the card's menu if and only if it was closed |
| AppHome.ToggleTwiceCloses | app/home/page.jsx:111 | two clicks on a closed card's button leave every menu closed |
| AppHome.OneMenuAtATime | app/home/page.jsx:111 | opening one card's menu closes any other's |
| AppHome.CardMenu.constructor | app/home/page.jsx:33 | no menu is open at first |
| AppHome.CardMenu.Toggle | app/home/page.jsx:109-112 | the menu state becomes the toggled state: for a non-null id, the card's menu is open afterwards if and only if it was closed before |
| AppHome.CardMenu.Close | app/home/page.jsx:124-129 | "Move to Trash", like a click anywhere else on the page (line 50), closes every menu |
| HomePage.BlankQueryListsAll | src/pages/HomePage.jsx:12-13 | a blank query lists every record |
| HomePage.IndustryText | src/pages/HomePage.jsx:58 | a missing industry shows nothing; a string shows with every `-` replaced by a space; any other value fails |
| HomePage.IndustryTextHasNoDash | src/pages/HomePage.jsx:58 | the industry line never shows a `-` |
| HomePage.IndustryTextKeepsPlainSlug | src/pages/HomePage.jsx:58 | a slug without dashes shows as it is |
| HomePage.EmptyMessage | src/pages/HomePage.jsx:67 | "No docs found." without a query; with one, "No docs found for “query”." quoting it exactly |
| HomePage.EmptyMessageQuotesQuery | src/pages/HomePage.jsx:67 | the message differs from the bare sentence if and only if the query is not empty, and then contains the query |
| HomePage.Message | src/pages/HomePage.jsx:65-69 | the message is shown exactly when the search lists nothing |
| HomePage.BlankQueryIsQuoted | src/pages/HomePage.jsx:67 | with no records, a whitespace-only query is quoted although the search ignored it |
| LoginPage.FriendlyError | app/login/page.jsx:191-208 | the three credential codes give "Invalid email or password."; the four other known codes give their own messages; every other value, undefined included, gives the fallback; the message is never empty |
| LoginPage.MessagesDistinct | app/login/page.jsx:196-206 | the six messages are pairwise different |
| LoginPage.FriendlyErrorExact | app/login/page.jsx:191-208 | each message is given for exactly its own codes, and the fallback for exactly the unknown ones |
| LoginPage.EmailAuthError | app/login/page.jsx:31-47 | after email sign-in the error line is empty on success and the code's message on failure |
| LoginPage.GoogleAuthError | app/login/page.jsx:49-62 | after Google sign-in the error line is empty if and only if sign-in succeeded or the popup was closed; otherwise it is the code's message |
| LoginPage.HandlersDifferOnlyOnPopupClosed | app/login/page.jsx:56-58 | the two handlers leave the same error line for every outcome except a closed popup |

## Left out

- Number parsing, floating point and `toFixed(2)`. `Number()` on a string is the parameter `parse`; numbers are exact reals, with no rounding, infinities or NaN inside a record.
- Values.ToNumber: reads every array and object as NaN. JavaScript reads `[]` as 0 and a one-element array through its element.
- EditorPage.MergeItem: compares `li.id === itemId` by value. For object and array ids JavaScript compares references; ids in the shown code are strings.
- Object identity and aliasing. The store and the editor share one object in JavaScript; the model copies values, which is the same behaviour because no code shown mutates a record in place.
- The order of object keys. Records are maps.
- Unicode case mapping and UTF-16 code units. `toLowerCase` and `toUpperCase` act on ASCII letters only, and `s[0]` is the first character, not the first code unit.
- Templates.GetTemplatesByIndustry and Templates.GetTemplateById: take a string. Every catalog field they compare is a string, so with any other argument `===` never holds: the result is empty or null.
- `createDocFromTemplate` with an industry that is not a string throws in `replaceAll`. The model's industry parameter is a string.
- DocList.Filtered: requires searchable titles (text or falsy) for a non-blank query. The source throws on any other title, and the store only ever stores string titles.
- EditorPage.Editor.SetLineItem: requires readable lines. The source throws before patching when they are not.
- `crypto.randomUUID()` and `new Date().toISOString()`: the fresh ids and the timestamp are parameters.
- `listDocs`, `softDeleteDoc`, `listDeletedDocs`, `restoreDoc` and `deleteDoc`. The pages call them, but `src/data/docsStore.js` does not define them, so there is no code to model. The same holds for sequence counters, local durability, remote sync and session start. "Move to Trash" is modelled only as closing the menu.
- React rendering and hooks, routing and navigation, the null-document screen, `window.print`, the `FileReader` logo upload, `autoGrow` sizing and `toLocaleDateString`. These are UI and browser I/O.
- Firebase authentication: `signInWithEmailAndPassword`, `createUserWithEmailAndPassword`, `signInWithPopup`, the redirect after sign-in, and the `mode` and `submitting` state. Sign-in is modelled only by its outcome: success, or a failure with a code.
- The presentation-only files: the layouts, the template pages, the navigation bar and the landing page.

## Findings

| source | as written | input that shows it | evidently intended | confidence | as-written member | corrected member |
|---|---|---|---|---|---|---|
| src/pages/EditorPage.jsx:26-30 | `Number.isFinite(Number(doc?.pricing?.totalCost))` lets a cleared total-cost field (`""`, set by the input at line 359) override the lines, because `Number("")` is 0 | lines `[{qty: 2, rate: 50}]` with `pricing: {totalCost: ""}`: the estimate shows 0 and the lines total 100 | a blank total cost falls back to the line-item total, as a missing one does | medium; not executed | EditorPage.BlankTotalCostHidesItems | EditorPage.EstimateTotalIntended |

The editor's placeholder, `EditorPage.Editor.EstimatePlaceholder`, is the total as written, so it shows the discrepancy. `EditorPage.Editor.IntendedPlaceholder` is the same placeholder built on the corrected total.
