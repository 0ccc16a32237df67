# Slide editor core of winmix-hero-reactor, in Dafny

The repository is a React slide editor with a landing page. Its logic, apart from rendering, is
a few in-memory stores and small state machines. This project models them:

- **Content blocks** (`src/types/content.ts`): the eight tagged block kinds, partial patches, and the
  default constructors. Module `ContentTypes`.
- **Slides and presentations** (`src/types/slides.ts`): module `SlideTypes`.
- **The document store** (`src/context/ContentContext.tsx`) and its two split-out hooks:
  - `src/context/content/slideManagement.ts` is module `SlideManagement`;
  - `src/context/content/contentManagement.ts` is module `ContentManagement`.

  The hooks hold the slide and content logic. Class `ContentContext.ContentStore` applies it to
  the store's fields. The exception is `reorderSlide`, which the store has in its own, different
  form (see Findings).
- **The flat content store** (`src/context/ContentManagementContext.tsx`): its reorder rewrites
  `order` fields and never moves array positions. Module `ContentManagementContext`.
- **The simpler slide store** (`src/context/PresentationContext.tsx`): module `PresentationContext`.
- **Presentation mode** (`src/context/content/presentationMode.ts`): module `PresentationMode`.
- **The theme registry and the theme editor's copy-on-write handlers**: modules `ThemeContext` and
  `ThemeEditor`.
- **The table and grid editor forms**: modules `TableForm` and `GridForm`.
- **The canvas**:
  - panning (`CanvasNavigation`);
  - the toolbar zoom and edit toggle (`CanvasControls`);
  - the slide canvas zoom (`SlideCanvas`);
  - a block's move and focus controls (`ContentItem`).
- **The hero carousel's cyclic index with its animation lock** (`HeroCarousel`).
- **The asset library's search, delete and drop** (`AssetManager`).

Shared pieces:

- `Common` has `Option` and JavaScript's `||` on strings and numbers.
- `SeqOps` has the array surgery the code does with `splice`, `filter` and `findIndex`, including
  how `splice` normalises its start argument.

Modelling choices:

- State that the source updates in place is a class with one field per `useState` variable.
  Each method's `modifies` clause names exactly the fields it may write.
- Pure transformations are functions. The properties the code relies on are lemmas about them.
- The headline invariant is that each block's `order` equals its position
  (`ContentManagement.OrdersMatchPositions`). It is kept by every add, delete and reorder of the
  document store. An update whose patch carries no `order` keeps it too.

Inputs and external values:

- Ids from `uuidv4()` are supplied by the caller as parameters. So are `Date` values and the
  outcome of browser fullscreen requests.
- A block is a record `Content(id, kind, order, body, extra)`. The tag is a field of its own,
  because the flat store's plain spread can change `type` without touching the payload. `extra`
  holds the keys a spread leaves on the object that belong to another variant. `Keys` reads a
  block back as the set of keys its JavaScript object carries, so merges are stated as spreads.
- The toolbar zoom is counted in quarter steps: 4 means a zoom of 1, 2 means 0.5, 12 means 3.

## Model

| member | source | states |
|---|---|---|
| Common.OrString | src/context/ContentManagementContext.tsx:40 | `s \|\| fallback` on a string: a present non-empty string is kept; a missing or empty one gives the fallback |
| Common.OrNumber | src/context/ContentManagementContext.tsx:49 | `n \|\| fallback` on a number: a present non-zero number is kept; a missing or zero one gives the fallback |
| SeqOps.RemoveAt | src/context/content/slideManagement.ts:84 | `splice(i, 1)` shortens by one, keeps the prefix, and shifts the suffix down |
| SeqOps.InsertAt | src/context/content/slideManagement.ts:85 | `splice(i, 0, x)` lengthens by one, puts `x` at `i`, keeps the prefix, and shifts the suffix up |
| SeqOps.SpliceStart | src/context/PresentationContext.tsx:88-89 | the start `splice` uses: within [0, len]; a negative start counts back from the end and stops at 0; past the end means the end |
| SeqOps.SpliceRemove | src/components/ContentCreator/Forms/TableForm.tsx:36-37 | `copy.splice(index, 1)`: on a non-empty list any start below the length removes the element at the normalised start; otherwise nothing is removed |
| SeqOps.SpliceMove | src/context/content/contentManagement.ts:122-124 | remove-then-insert keeps the length and leaves the moved element at the target |
| SeqOps.SpliceMoveAt | src/context/content/contentManagement.ts:122-124 | after the move, every element, moved or not, is at its `MovedIndex` |
| SeqOps.SpliceMoveFrom | src/context/content/slideManagement.ts:83-85 | the element at each result position, by cases: the moved one, a neighbour shifted by one, or the original |
| SeqOps.RemoveAtMultiset | src/context/content/slideManagement.ts:84 | removing at `i` takes exactly one copy of `s[i]` out of the multiset |
| SeqOps.InsertAtMultiset | src/context/content/slideManagement.ts:85 | inserting adds exactly one copy of the element to the multiset |
| SeqOps.SpliceMovePermutes | src/context/ContentContext.tsx:154-156 | a splice-move is a permutation: same multiset of elements |
| SeqOps.Filter | src/context/ContentContext.tsx:124 | `filter` never lengthens and keeps only elements of the input that pass |
| SeqOps.FilterMembership | src/context/content/contentManagement.ts:88 | an element is in the filtered list iff it is in the input and passes |
| SeqOps.FilterAppend | src/context/ThemeContext.tsx:158 | filtering distributes over concatenation, so kept elements keep their order |
| SeqOps.FilterKeepsAll | src/context/content/contentManagement.ts:88 | a filter that rejects no element is the identity |
| SeqOps.FilterDrops | src/context/content/slideManagement.ts:53 | a filter that rejects some element makes the list strictly shorter |
| SeqOps.FindIndex | src/context/content/slideManagement.ts:50 | `findIndex`: -1 iff no element matches; otherwise the first matching index |
| SeqOps.FindIndexAgrees | src/context/ThemeContext.tsx:170 | two lists that agree position by position on the predicate have the same first match |
| ContentTypes.PatchBody | src/context/content/contentManagement.ts:66-71 | spreading a patch over a payload keeps its variant, and the result is that variant read from the payload's keys with the patch's keys written over them |
| ContentTypes.BodyFromKeys | src/types/content.ts:114-122 | reading a key bag as a variant yields a payload of that variant exactly when the variant's required keys are present |
| ContentTypes.BodyKeysRoundTrip | src/types/content.ts:114-122 | a well-typed block's keys read back as its own payload |
| ContentTypes.Merge | src/context/ContentManagementContext.tsx:112 | the plain spread `{...c, ...p}`: id, type and order come from the patch when present; the payload keeps its variant; a block whose extra keys are foreign to its variant keeps that property |
| ContentTypes.MergeIsSpread | src/context/ContentManagementContext.tsx:112 | key by key, the merged block's object is the block's object with every key present in the patch written over it, keys of other variants included |
| ContentTypes.MergeEmptyPatch | src/context/ContentManagementContext.tsx:112 | spreading an empty patch leaves the block unchanged |
| ContentTypes.CreateDefaultTableCell | src/types/content.ts:129-132 | the cell has the supplied id and content |
| ContentTypes.CreateDefaultTableRow | src/types/content.ts:135-138 | the row has exactly `cellCount` cells, each empty, with fresh ids |
| ContentTypes.CreateDefaultGridItem | src/types/content.ts:141-147 | the item keeps the given content and contentId, has colSpan = rowSpan = 1, and is unpositioned |
| ContentTypes.CreateDefaultContent | src/types/content.ts:150-179 | for each of the eight tags: the block has that tag and the given order, a well-typed payload, and the tag's default fields (table: a header row, "Header 1"/"Header 2", and one row of two empty cells) |
| ContentTypes.DefaultTableIds | src/types/content.ts:158-163 | the default table's header, row and cell ids are the five supplied fresh ids, in order |
| SlideTypes.MergeSlide | src/context/PresentationContext.tsx:53 | `{...slide, ...patch}`: every key present in the patch wins, id included |
| SlideTypes.SlidesWithout | src/context/ContentContext.tsx:124 | the remaining slides are exactly those with another id |
| SlideTypes.SlideIndex | src/context/ContentContext.tsx:121 | -1 iff no slide has the id; otherwise the first slide with it |
| SlideTypes.SlidesWithoutAbsent | src/context/ContentContext.tsx:122 | deleting an absent id changes nothing |
| SlideTypes.SlidesWithoutUnique | src/context/content/slideManagement.ts:50-54 | with distinct ids, the filter removes exactly the one slide at the found index |
| SlideManagement.NewSlide | src/context/content/slideManagement.ts:14-23 | defaults "New Slide", type content, empty content and elements; every key of the partial overrides them, including its id |
| SlideManagement.AddSlide | src/context/content/slideManagement.ts:13-33 | appends exactly the new slide after the unchanged old ones and selects it; the returned id is the stored one iff the partial has no other id |
| SlideManagement.UpdateSlide | src/context/content/slideManagement.ts:35-43 | only slides with the id change, they take the patch, and no slide's id changes |
| SlideManagement.DeleteSlide | src/context/content/slideManagement.ts:45-70 | unknown id: nothing changes; otherwise the list shrinks and the index becomes 0 if the list is empty, max(0, cur-1) if the current slide was deleted, cur-1 if an earlier one was, and stays otherwise; with distinct ids an in-range index stays in range and still designates the current slide unless it was deleted |
| SlideManagement.TrackedIndex | src/context/content/slideManagement.ts:87-96 | the clamped new index always lies within the list |
| SlideManagement.TrackedIndexFollowsSlide | src/context/content/slideManagement.ts:88-96 | the clamped index equals the position the splice-move gives the previously current slide |
| SlideManagement.ReorderSlide | src/context/content/slideManagement.ts:72-103 | equal or out-of-range indices change nothing; otherwise the result is the splice-move, a permutation; the index is the tracked index (the current slide's splice-move position, clamped into the list) and designates the slide that was current, whether or not it moved |
| ContentManagement.Reindexed | src/context/content/contentManagement.ts:90-93 | after re-stamping, orders equal positions, and nothing but `order` changed |
| ContentManagement.ReindexedIdentity | src/context/content/contentManagement.ts:90-93 | re-stamping a list whose orders already match positions is the identity |
| ContentManagement.IdsOfFilter | src/context/content/contentManagement.ts:88 | filtering blocks by id and filtering their id list agree |
| ContentManagement.ContentIndex | src/context/content/contentManagement.ts:114 | -1 iff no block has the id; otherwise the first block with it |
| ContentManagement.NewContent | src/context/content/contentManagement.ts:25-38 | the added block has the default's fresh id, the requested type and order = old length; its keys are the default block's keys with the partial's keys written over them, except id, type and order |
| ContentManagement.AddContentKeepsOrders | src/context/content/contentManagement.ts:40-43 | appending the new block keeps orders equal to positions |
| ContentManagement.UpdateContent | src/context/content/contentManagement.ts:64-73 | only blocks with the id change; ids and types never change; the matched block takes the patch's payload keys and its `order` when present; well-typedness is kept |
| ContentManagement.UpdateContentIsSpread | src/context/content/contentManagement.ts:66-71 | key by key, a matched block becomes `{...content, ...contentUpdate, id, type}`: every patch key wins except id and type |
| ContentManagement.UpdateWithoutOrderKeepsOrders | src/context/content/contentManagement.ts:66-71 | an update whose patch has no `order` keeps orders equal to positions |
| ContentManagement.DeleteContent | src/context/content/contentManagement.ts:87-94 | afterwards no block has the id, orders equal positions, and apart from `order` the result is exactly the blocks with another id, in order, with kind, body and extra keys unchanged |
| ContentManagement.DeleteContentIds | src/context/content/contentManagement.ts:88-93 | the remaining ids are exactly the other ids, in their previous order |
| ContentManagement.DeleteAbsentIsNoop | src/context/content/contentManagement.ts:87-94 | deleting an absent id from a list with orders equal to positions is a no-op |
| ContentManagement.FocusAfterDelete | src/context/content/contentManagement.ts:101-103 | the focus is cleared exactly when it was on the deleted id |
| ContentManagement.ReorderContent | src/context/content/contentManagement.ts:107-137 | moves iff the id is present and the clamped target differs from its position; otherwise no change; after a move the item is at the clamped target, every other item is at its shifted position, nothing is lost or duplicated, and orders equal positions |
| ContentManagement.MoveThenReindex | src/context/content/contentManagement.ts:122-130 | a splice-move followed by a re-stamp puts every item at its `MovedIndex` and preserves the multiset of items |
| ContentManagement.WithCurrentContent | src/context/content/contentManagement.ts:85-97 | only the slide at the current index changes, and only its content list |
| ContentManagementContext.FallbackContent | src/context/ContentManagementContext.tsx:34-103 | per-tag `\|\|` fallbacks ('' strings, level 2, grid 3x3, variant 'default'); image and spacer become an empty text block; fresh id and order = length |
| ContentManagementContext.TitleLevelFallback | src/context/ContentManagementContext.tsx:49 | a missing or zero title level becomes 2 |
| ContentManagementContext.FlatUpdate | src/context/ContentManagementContext.tsx:109-115 | only blocks with the id change; id, type and order come from the patch when present |
| ContentManagementContext.FlatUpdateIsSpread | src/context/ContentManagementContext.tsx:109-115 | key by key, a matched block becomes `{...content, ...contentUpdate}`, with every patch key winning, id and type included |
| ContentManagementContext.FlatUpdateCanRetag | src/context/ContentManagementContext.tsx:112 | a patch `{type: 'title', level}` retags a text block: the tag and the payload record disagree, yet the object's keys read as the title with the text's content and that level |
| ContentManagementContext.ReorderedOrderBijective | src/context/ContentManagementContext.tsx:136-150 | the order rewrite is one-to-one and maps [0, n) into itself |
| ContentManagementContext.ArithmeticReorder | src/context/ContentManagementContext.tsx:128-152 | positions, ids and payloads never change; unknown id or equal order: no change; otherwise the blocks with the id get the new order |
| ContentManagementContext.PositionsArePermutation | src/context/ContentManagementContext.tsx:119-125 | orders equal to positions are a permutation of 0..n-1 |
| ContentManagementContext.ArithmeticReorderIsMove | src/context/ContentManagementContext.tsx:136-147 | with distinct ids and orders equal to positions, every block gets the order its position would have after the hook's splice-move: the moved block the target, the blocks between shifted by one towards the gap, the rest unchanged |
| ContentManagementContext.ArithmeticReorderPermutes | src/context/ContentManagementContext.tsx:136-147 | with distinct ids, orders 0..n-1 and a target in range, orders stay a permutation and the moved block gets the target |
| ContentManagementContext.FlatContentStore.constructor | src/context/ContentManagementContext.tsx:23-26 | empty list, no focus, not editing, zoom 1 |
| ContentManagementContext.FlatContentStore.AddContent | src/context/ContentManagementContext.tsx:28-107 | appends exactly the fallback block and keeps orders equal to positions |
| ContentManagementContext.FlatContentStore.UpdateContent | src/context/ContentManagementContext.tsx:109-115 | the list becomes `FlatUpdate` of the old list, the spread that `FlatUpdateIsSpread` characterises key by key |
| ContentManagementContext.FlatContentStore.DeleteContent | src/context/ContentManagementContext.tsx:117-126 | the other blocks remain in order with kind, body and extra keys unchanged, and orders equal positions (so they form a permutation) |
| ContentManagementContext.FlatContentStore.ReorderContent | src/context/ContentManagementContext.tsx:128-152 | only `order` fields change; a permutation of orders stays one for in-range targets; with distinct ids and orders equal to positions, each block's new order is its splice-move position |
| ContentManagementContext.FlatContentStore.SetFocusedContentId | src/context/ContentManagementContext.tsx:24 | raw setter |
| ContentManagementContext.FlatContentStore.SetEditMode | src/context/ContentManagementContext.tsx:25 | raw setter |
| ContentManagementContext.FlatContentStore.SetZoomLevel | src/context/ContentManagementContext.tsx:26 | raw setter, no clamp |
| PresentationMode.Enter | src/context/content/presentationMode.ts:9-17 | presenting, not editing, nothing focused, and fullscreen requested; a rejection changes no state |
| PresentationMode.Exit | src/context/content/presentationMode.ts:19-28 | not presenting; edit mode and focus kept; release requested iff an element is fullscreen |
| PresentationMode.EnterThenExit | src/context/content/presentationMode.ts:9-28 | enter then exit ends in preview mode with nothing focused; a second enter, or a second exit, changes nothing more |
| PresentationContext.IndexAfterDelete | src/context/PresentationContext.tsx:70-72 | the index is unchanged while it designates a slide; otherwise it becomes max(0, len-1) |
| PresentationContext.PlainUpdate | src/context/PresentationContext.tsx:52-54 | only slides with the id change; they take every patch key, id included |
| PresentationContext.PlainUpdateCanRename | src/context/PresentationContext.tsx:53 | a patch carrying another id renames the slide |
| PresentationContext.SpliceReorder | src/context/PresentationContext.tsx:87-89 | the unchecked splice-move with both starts normalised; a permutation |
| PresentationContext.SpliceReorderLandsAtTarget | src/context/PresentationContext.tsx:87-93 | for in-range indices, the moved slide ends at the target |
| PresentationContext.SpliceReorderShiftsOthers | src/context/PresentationContext.tsx:87-94 | when a slide moves from before the current one to after it, the unchanged index now shows the next slide |
| PresentationContext.PresentationStore.constructor | src/context/PresentationContext.tsx:27-29 | nothing loaded, index 0, not presenting |
| PresentationContext.PresentationStore.CurrentSlide | src/context/PresentationContext.tsx:32 | a slide iff the index is in range, and then the slide at the index |
| PresentationContext.PresentationStore.SetCurrentPresentation | src/context/PresentationContext.tsx:27 | raw setter |
| PresentationContext.PresentationStore.SetCurrentSlideIndex | src/context/PresentationContext.tsx:28 | raw setter |
| PresentationContext.PresentationStore.AddSlide | src/context/PresentationContext.tsx:34-46 | appends the slide as given; the index becomes the old count even with nothing loaded |
| PresentationContext.PresentationStore.UpdateSlide | src/context/PresentationContext.tsx:48-61 | slides become the plain update |
| PresentationContext.PresentationStore.DeleteSlide | src/context/PresentationContext.tsx:63-79 | every slide with the id is removed; the index moves only when it falls off the end; deleting an earlier slide leaves the index on the slide after the current one |
| PresentationContext.PresentationStore.ReorderSlide | src/context/PresentationContext.tsx:81-101 | equal indices or nothing loaded: no change; otherwise the unchecked splice-move; the index is replaced by the target exactly when it equalled the source; a moved current slide stays shown for a target inside the list, while a target equal to the length leaves no current slide |
| PresentationContext.PresentationStore.EnterPresentationMode | src/context/PresentationContext.tsx:103-125 | presenting unless the fullscreen request is refused; a toast iff unsupported or refused |
| PresentationContext.PresentationStore.ExitPresentationMode | src/context/PresentationContext.tsx:127-140 | never presenting afterwards; a toast iff a fullscreen release was attempted and failed |
| ContentContext.AsWrittenIndex | src/context/ContentContext.tsx:159-167 | the store's reorder index: a forward move of the current slide gives target-1, a backward move gives the target, and the result is clamped into the list |
| ContentContext.AsWrittenIndexAgreement | src/context/ContentContext.tsx:159-167 | the store's rule agrees with the hook's following rule iff it is not a forward move of the current slide to a target inside the list |
| ContentContext.AsWrittenIndexLosesMovedSlide | src/context/ContentContext.tsx:159-160 | on such a move, the selected slide is the one that was at the target, not the moved one |
| ContentContext.AsWrittenIndexFollowsUnmoved | src/context/ContentContext.tsx:161-167 | when the current slide is not moved, the store's index still designates it |
| ContentContext.AsWrittenReorder | src/context/ContentContext.tsx:154-167 | the reorder is a permutation, and an unmoved current slide stays selected |
| ContentContext.ContentStore.constructor | src/context/ContentContext.tsx:52-57 | nothing loaded, index 0, no focus, edit mode, zoom 1, not presenting |
| ContentContext.ContentStore.CurrentSlide | src/context/ContentContext.tsx:62-67 | a slide iff the index is in range, and then the slide at the index |
| ContentContext.ContentStore.SetCurrentPresentation | src/context/ContentContext.tsx:52 | raw setter |
| ContentContext.ContentStore.SetCurrentSlideIndex | src/context/ContentContext.tsx:53 | raw setter |
| ContentContext.ContentStore.SetFocusedContentId | src/context/ContentContext.tsx:54 | raw setter |
| ContentContext.ContentStore.SetEditMode | src/context/ContentContext.tsx:55 | raw setter |
| ContentContext.ContentStore.SetZoomLevel | src/context/ContentContext.tsx:56 | raw setter, no clamp |
| ContentContext.ContentStore.SetSlides | src/context/ContentContext.tsx:74-80 | replaces only the slide list of the loaded presentation |
| ContentContext.ContentStore.AddSlide | src/context/ContentContext.tsx:84-104 | nothing loaded: no change; otherwise the new slide is appended and becomes current; the fresh id is returned |
| ContentContext.ContentStore.UpdateSlide | src/context/ContentContext.tsx:106-114 | the hook's id-preserving update, applied only when a presentation is loaded |
| ContentContext.ContentStore.DeleteSlide | src/context/ContentContext.tsx:116-141 | the hook's deletion and index rules; with distinct ids the index stays in range and keeps the current slide unless it was deleted |
| ContentContext.ContentStore.ReorderSlide | src/context/ContentContext.tsx:143-175 | invalid indices: no change; otherwise a permutation, and the index is `AsWrittenIndex`, in range, on the current slide unless that slide was moved |
| ContentContext.ContentStore.SetCurrentContent | src/context/ContentContext.tsx:189-212 | only the current slide's content list changes |
| ContentContext.ContentStore.AddContent | src/context/ContentContext.tsx:180-221 | no current slide: returns none and changes nothing; otherwise appends the new block at order = length, focuses it, and keeps orders equal to positions |
| ContentContext.ContentStore.UpdateContent | src/context/ContentContext.tsx:224-245 | the current slide's blocks take the id- and type-preserving update |
| ContentContext.ContentStore.DeleteContent | src/context/ContentContext.tsx:247-270 | no current slide: nothing changes, the focus included; otherwise the current slide keeps the other blocks in order with kind, body and extra keys unchanged, orders equal positions, and the focus is cleared iff it was on the deleted id |
| ContentContext.ContentStore.ReorderContent | src/context/ContentContext.tsx:273-303 | unknown id or same clamped position: no change; otherwise the block is at the clamped target, every other block is at its splice-move position with its payload unchanged, the multiset of blocks is kept, and orders equal positions |
| ContentContext.ContentStore.EnterPresentationMode | src/context/ContentContext.tsx:307-315 | presenting, not editing, nothing focused, whatever the fullscreen outcome |
| ContentContext.ContentStore.ExitPresentationMode | src/context/ContentContext.tsx:317-326 | not presenting; edit mode untouched |
| ThemeContext.Colors.With | src/components/ContentCreator/ThemeEditor/ThemeEditor.tsx:21-27 | `{...colors, [key]: c}` replaces exactly one entry |
| ThemeContext.CustomTheme | src/context/ThemeContext.tsx:133-137 | the new theme has the fresh id, is custom, and carries the given settings |
| ThemeContext.PatchTheme | src/context/ThemeContext.tsx:149 | the spread keeps id and custom flag and takes each present patch field |
| ThemeContext.DefaultThemes | src/context/ThemeContext.tsx:38-108 | three built-ins, 'default', 'dark' and 'minimal', none custom |
| ThemeContext.FindTheme | src/context/ThemeContext.tsx:170 | the first theme with the id, or `themes[0]` when none has it |
| ThemeContext.UpdateThemes | src/context/ThemeContext.tsx:144-153 | only custom themes with the id change; ids and flags never change |
| ThemeContext.DeleteThemes | src/context/ThemeContext.tsx:155-158 | exactly the themes that are not custom with that id remain |
| ThemeContext.BuiltInsSurviveDelete | src/context/ThemeContext.tsx:158 | the delete filter passes built-in themes through unchanged |
| ThemeContext.CustomStayCustom | src/context/ThemeContext.tsx:158 | what the filter keeps of custom themes is still custom |
| ThemeContext.DeleteKeepsPrefix | src/context/ThemeContext.tsx:155-158 | a prefix of built-ins survives a delete in front, followed only by custom themes |
| ThemeContext.DeleteKeepsShape | src/context/ThemeContext.tsx:155-166 | deleting keeps the built-ins first and unchanged, followed by custom themes only |
| ThemeContext.UpdateKeepsShape | src/context/ThemeContext.tsx:144-153 | updating keeps the built-ins first and unchanged, followed by custom themes only |
| ThemeContext.ThemeRegistry.constructor | src/context/ThemeContext.tsx:122-123 | the three built-ins, with 'default' current |
| ThemeContext.ThemeRegistry.CurrentTheme | src/context/ThemeContext.tsx:170 | a registered theme with the current id |
| ThemeContext.ThemeRegistry.SetCurrentTheme | src/context/ThemeContext.tsx:125-130 | the current id changes only to an existing id |
| ThemeContext.ThemeRegistry.AddCustomTheme | src/context/ThemeContext.tsx:132-142 | appends one custom theme with the fresh id and makes it current |
| ThemeContext.ThemeRegistry.UpdateTheme | src/context/ThemeContext.tsx:144-153 | built-ins never change, and the registry keeps its shape |
| ThemeContext.ThemeRegistry.DeleteTheme | src/context/ThemeContext.tsx:155-167 | built-ins survive; the current id becomes 'default' whenever it equals the argument, even if nothing was removed |
| ThemeEditor.EditPatch | src/components/ContentCreator/ThemeEditor/ThemeEditor.tsx:30-41 | each edit writes exactly its own field group (colours, typography or spacing) |
| ThemeEditor.Edited | src/components/ContentCreator/ThemeEditor/ThemeEditor.tsx:56-62 | an edit never changes id, flag, name or radius |
| ThemeEditor.ColorEditChangesOnlyValue | src/components/ContentCreator/ThemeEditor/ThemeEditor.tsx:21-27 | a colour edit changes only that colour's value; its name, the other colours and the other settings are kept |
| ThemeEditor.FieldEditChangesOnlyField | src/components/ContentCreator/ThemeEditor/ThemeEditor.tsx:44-126 | a typography or spacing edit changes exactly its one field |
| ThemeEditor.ForkSettings | src/components/ContentCreator/ThemeEditor/ThemeEditor.tsx:18-28 | the fork carries the edited settings under `customThemeName` |
| ThemeEditor.FindAfterUpdate | src/components/ContentCreator/ThemeEditor/ThemeEditor.tsx:30-41 | after an in-place update, the lookup finds the patched current theme |
| ThemeEditor.HandleChange | src/components/ContentCreator/ThemeEditor/ThemeEditor.tsx:15-126 | built-in current theme: a custom fork is appended and becomes current, and the built-ins are unchanged; custom current theme: it is edited in place and stays current |
| ThemeEditor.HandleDuplicateTheme | src/components/ContentCreator/ThemeEditor/ThemeEditor.tsx:128-134 | appends "<name> Copy" with the current settings and makes it current |
| ThemeEditor.HandleCreateNew | src/components/ContentCreator/ThemeEditor/ThemeEditor.tsx:136-142 | appends a copy of the built-in 'default' named `customThemeName` |
| ThemeEditor.HandleDelete | src/components/ContentCreator/ThemeEditor/ThemeEditor.tsx:170-178 | only a custom current theme is deleted, and then 'default' becomes current |
| ThemeEditor.HandleNameChange | src/components/ContentCreator/ThemeEditor/ThemeEditor.tsx:182-196 | only a custom current theme is renamed, in place |
| TableForm.WithNewCell | src/components/ContentCreator/Forms/TableForm.tsx:27-30 | every row keeps its cells and gains one empty cell at the end |
| TableForm.WithoutCell | src/components/ContentCreator/Forms/TableForm.tsx:41-48 | every row's cells are spliced at the same index as the headers |
| TableForm.AddHeaderKeepsRectangular | src/components/ContentCreator/Forms/TableForm.tsx:23-31 | adding a header keeps every row at one cell per header |
| TableForm.RemoveHeaderKeepsRectangular | src/components/ContentCreator/Forms/TableForm.tsx:33-49 | removing a header keeps every row at one cell per header, for every index |
| TableForm.AddRowKeepsRectangular | src/components/ContentCreator/Forms/TableForm.tsx:57-65 | a new row has one empty cell per header |
| TableForm.TableFormState.constructor | src/components/ContentCreator/Forms/TableForm.tsx:15-21 | given data is taken as it is; otherwise a one-by-one table, which is rectangular |
| TableForm.TableFormState.AddHeader | src/components/ContentCreator/Forms/TableForm.tsx:23-31 | one empty header and one empty cell per row are appended; rectangularity is kept |
| TableForm.TableFormState.RemoveHeader | src/components/ContentCreator/Forms/TableForm.tsx:33-49 | no-op with at most one header; otherwise header and cells spliced at the index; the invariant is kept |
| TableForm.TableFormState.UpdateHeader | src/components/ContentCreator/Forms/TableForm.tsx:51-55 | only that header's text changes |
| TableForm.TableFormState.AddRow | src/components/ContentCreator/Forms/TableForm.tsx:57-65 | appends a row of one empty cell per header |
| TableForm.TableFormState.RemoveRow | src/components/ContentCreator/Forms/TableForm.tsx:67-73 | no-op with at most one row; otherwise exactly the row at the index is removed; at least one row remains |
| TableForm.TableFormState.UpdateCell | src/components/ContentCreator/Forms/TableForm.tsx:75-82 | only that cell's text changes; ids and shape are kept |
| GridForm.Digit | src/components/ContentCreator/Forms/GridForm.tsx:20 | the character of a decimal digit |
| GridForm.NatToString | src/components/ContentCreator/Forms/GridForm.tsx:20 | `${n}` is a non-empty digit string without a leading zero |
| GridForm.NatToStringRoundTrip | src/components/ContentCreator/Forms/GridForm.tsx:41 | reading the digits of `${n}` back gives `n` |
| GridForm.JsRem | src/components/ContentCreator/Forms/GridForm.tsx:52 | JavaScript `%`: the remainder takes the dividend's sign and is smaller than the divisor in magnitude |
| GridForm.FloorDiv | src/components/ContentCreator/Forms/GridForm.tsx:53 | `Math.floor(a / b)` for either sign of `b` |
| GridForm.DefaultItems | src/components/ContentCreator/Forms/GridForm.tsx:17-24 | 25 items; item i shows i+1 and sits in a cell of the 5-by-5 grid |
| GridForm.ResetLayout | src/components/ContentCreator/Forms/GridForm.tsx:49-55 | every item keeps its id, content, link and spans, and gets a position |
| GridForm.ResetLayoutRowMajor | src/components/ContentCreator/Forms/GridForm.tsx:50-54 | for positive columns: column in [1, columns], row at least 1, and (row-1)*columns + (col-1) = i |
| GridForm.ResetLayoutDistinct | src/components/ContentCreator/Forms/GridForm.tsx:50-54 | for positive columns, distinct items get distinct cells |
| GridForm.ResetLayoutNegativeColumns | src/components/ContentCreator/Forms/GridForm.tsx:52-53 | for negative columns: columns stay in [1, -columns], but every item after the first gets a row below 1 |
| GridForm.DefaultItemsAreResetLayout | src/components/ContentCreator/Forms/GridForm.tsx:17-24 | the initial layout is the reset layout for 5 columns |
| GridForm.WithContent | src/components/ContentCreator/Forms/GridForm.tsx:26-30 | only items with the id get the new text |
| GridForm.WithPosition | src/components/ContentCreator/Forms/GridForm.tsx:32-36 | only items with the id move, to exactly the given start lines |
| GridForm.WithoutItem | src/components/ContentCreator/Forms/GridForm.tsx:45-47 | exactly the items with another id remain |
| GridForm.WithoutItemElementwise | src/components/ContentCreator/Forms/GridForm.tsx:45-47 | the removal distributes over concatenation and keeps a single item iff its id differs, so it keeps the surviving items in list order |
| GridForm.GridFormState.constructor | src/components/ContentCreator/Forms/GridForm.tsx:15-24 | `initialData` fields with `\|\| 5` fallbacks, or 5 by 5 with the 25 default items; neither count is 0 |
| GridForm.GridFormState.UpdateItemContent | src/components/ContentCreator/Forms/GridForm.tsx:26-30 | items become the content update |
| GridForm.GridFormState.UpdateItemPosition | src/components/ContentCreator/Forms/GridForm.tsx:32-36 | items become the position update |
| GridForm.GridFormState.AddItem | src/components/ContentCreator/Forms/GridForm.tsx:38-43 | one unpositioned item is appended whose text reads as the new item count |
| GridForm.GridFormState.RemoveItem | src/components/ContentCreator/Forms/GridForm.tsx:45-47 | items become the removal by id, which keeps the other items in their order |
| GridForm.GridFormState.ResetPositions | src/components/ContentCreator/Forms/GridForm.tsx:49-55 | items become the row-major reset layout for the current column count |
| GridForm.GridFormState.SetColumns | src/components/ContentCreator/Forms/GridForm.tsx:71 | `parseInt(value) \|\| 1`: never 0 |
| GridForm.GridFormState.SetRows | src/components/ContentCreator/Forms/GridForm.tsx:82 | `parseInt(value) \|\| 1`: never 0 |
| CanvasNavigation.Step | src/components/ContentCreator/Canvas/CanvasNavigation.tsx:23-46 | buttons 1 and 2 start a drag at the pointer and others do nothing; a move outside a drag does nothing; a move in a drag adds the pointer's travel; mouse-up ends the drag and keeps the offset |
| CanvasNavigation.MovesTelescope | src/components/ContentCreator/Canvas/CanvasNavigation.tsx:31-42 | over a drag the offset grows by exactly the final pointer minus the drag's start |
| CanvasNavigation.MovesWithoutDrag | src/components/ContentCreator/Canvas/CanvasNavigation.tsx:31-32 | moves outside a drag change nothing |
| CanvasNavigation.AfterFocus | src/components/ContentCreator/Canvas/CanvasNavigation.tsx:68-72 | a truthy focused id on a mounted canvas resets the offset to (0, 0); anything else keeps it |
| CanvasNavigation.CanvasNavigator.constructor | src/components/ContentCreator/Canvas/CanvasNavigation.tsx:12-14 | not dragging, both points at the origin |
| CanvasNavigation.CanvasNavigator.HandleMouseDown | src/components/ContentCreator/Canvas/CanvasNavigation.tsx:23-29 | the state takes one mouse-down step |
| CanvasNavigation.CanvasNavigator.HandleMouseMove | src/components/ContentCreator/Canvas/CanvasNavigation.tsx:31-42 | the state takes one mouse-move step |
| CanvasNavigation.CanvasNavigator.HandleMouseUp | src/components/ContentCreator/Canvas/CanvasNavigation.tsx:44-46 | the state takes one mouse-up step |
| CanvasNavigation.CanvasNavigator.FocusChanged | src/components/ContentCreator/Canvas/CanvasNavigation.tsx:68-72 | the state takes the focus effect |
| CanvasControls.ZoomedIn | src/components/PreziCanvas/CanvasControls.tsx:32-34 | min(z + 0.25, 3): never above 3 |
| CanvasControls.ZoomedOut | src/components/PreziCanvas/CanvasControls.tsx:36-38 | max(z - 0.25, 0.5): never below 0.5 |
| CanvasControls.ZoomInThenOut | src/components/PreziCanvas/CanvasControls.tsx:32-38 | below 3, zooming in then out returns to the start |
| CanvasControls.PressAllStaysInRange | src/components/PreziCanvas/CanvasControls.tsx:32-43 | from [0.5, 3], any sequence of zoom in, out and reset stays in [0.5, 3] |
| CanvasControls.HandleZoomIn | src/components/PreziCanvas/CanvasControls.tsx:32-34 | the store's zoom becomes the clamped zoom-in |
| CanvasControls.HandleZoomOut | src/components/PreziCanvas/CanvasControls.tsx:36-38 | the store's zoom becomes the clamped zoom-out |
| CanvasControls.HandleResetZoom | src/components/PreziCanvas/CanvasControls.tsx:40-43 | zoom exactly 1 and nothing focused |
| CanvasControls.HandleToggleEdit | src/components/PreziCanvas/CanvasControls.tsx:52 | edit mode flips |
| SlideCanvas.PercentIn | src/components/ContentCreator/SlideCanvas/SlideCanvas.tsx:11-13 | min(z + 10, 200) |
| SlideCanvas.PercentOut | src/components/ContentCreator/SlideCanvas/SlideCanvas.tsx:15-17 | max(z - 10, 50) |
| SlideCanvas.StepsStayReachable | src/components/ContentCreator/SlideCanvas/SlideCanvas.tsx:9-17 | both buttons keep the zoom a multiple of 10 in [50, 200] |
| SlideCanvas.InThenOut | src/components/ContentCreator/SlideCanvas/SlideCanvas.tsx:11-17 | for z in [50, 190], in then out returns z |
| SlideCanvas.SlideCanvasZoom.constructor | src/components/ContentCreator/SlideCanvas/SlideCanvas.tsx:9 | the zoom starts at 100, which is reachable |
| SlideCanvas.SlideCanvasZoom.HandleZoomIn | src/components/ContentCreator/SlideCanvas/SlideCanvas.tsx:11-13 | the zoom takes the clamped step, and a reachable zoom stays reachable |
| SlideCanvas.SlideCanvasZoom.HandleZoomOut | src/components/ContentCreator/SlideCanvas/SlideCanvas.tsx:15-17 | the zoom takes the clamped step, and a reachable zoom stays reachable |
| ContentItem.MoveUpTarget | src/components/ContentCreator/Canvas/ContentItem.tsx:22-26 | a request iff order > 0, and then for order - 1 |
| ContentItem.MoveDownTarget | src/components/ContentCreator/Canvas/ContentItem.tsx:28-32 | a request iff order < n - 1, and then for order + 1 |
| ContentItem.NeighbourMoveMoves | src/components/ContentCreator/Canvas/ContentItem.tsx:22-32 | a one-step target survives the store's clamp and differs from the block's position |
| ContentItem.HandleMoveUp | src/components/ContentCreator/Canvas/ContentItem.tsx:22-26 | at order 0 nothing changes; when order equals position, the block moves up one place, the neighbour above takes its old place, every other block keeps its place and payload, and orders stay positions |
| ContentItem.HandleMoveDown | src/components/ContentCreator/Canvas/ContentItem.tsx:28-32 | at the last position nothing changes; otherwise the block moves down one place, the neighbour below takes its old place, every other block keeps its place and payload, and orders stay positions |
| ContentItem.HandleClick | src/components/ContentCreator/Canvas/ContentItem.tsx:38-42 | in edit mode the focus is unchanged; otherwise this block, and only it, shows as focused |
| HeroCarousel.NextIndex | src/components/HeroCarousel.tsx:251 | n-1 goes to 0, otherwise i+1; stays in [0, n) |
| HeroCarousel.PrevIndex | src/components/HeroCarousel.tsx:240 | 0 goes to n-1, otherwise i-1; stays in [0, n) |
| HeroCarousel.NextPrevInverse | src/components/HeroCarousel.tsx:236-256 | next and previous undo each other |
| HeroCarousel.Carousel.constructor | src/components/HeroCarousel.tsx:26-27 | the first slide, unlocked |
| HeroCarousel.Carousel.GoToPrevSlide | src/components/HeroCarousel.tsx:236-245 | ignored while animating; otherwise one slide back, locked; the index stays in [0, 3) |
| HeroCarousel.Carousel.GoToNextSlide | src/components/HeroCarousel.tsx:247-256 | ignored while animating; otherwise one slide on, locked; the index stays in [0, 3) |
| HeroCarousel.Carousel.GoToSlide | src/components/HeroCarousel.tsx:258-267 | ignored while animating or for the current index; otherwise that slide, locked |
| HeroCarousel.Carousel.AnimationDone | src/components/HeroCarousel.tsx:242-244 | the lock is released |
| HeroCarousel.Carousel.Tick | src/components/HeroCarousel.tsx:226-234 | the auto-advance is a next move when unlocked and nothing otherwise |
| AssetManager.LowerChar | src/components/ContentCreator/AssetManager/AssetManager.tsx:62 | A-Z map to a-z; everything else is unchanged |
| AssetManager.Lower | src/components/ContentCreator/AssetManager/AssetManager.tsx:62 | `toLowerCase()` character by character, same length |
| AssetManager.LowerIdempotent | src/components/ContentCreator/AssetManager/AssetManager.tsx:62 | lower-casing twice equals lower-casing once |
| AssetManager.Includes | src/components/ContentCreator/AssetManager/AssetManager.tsx:62 | `includes` is true iff the query occurs at some position |
| AssetManager.FilteredAssets | src/components/ContentCreator/AssetManager/AssetManager.tsx:61-63 | an asset is shown iff its lower-cased name contains the lower-cased query |
| AssetManager.FilteredAssetsElementwise | src/components/ContentCreator/AssetManager/AssetManager.tsx:61-63 | the search distributes over concatenation and keeps a single asset iff its lower-cased name contains the lower-cased query, so matches stay in list order |
| AssetManager.EmptyQueryKeepsAll | src/components/ContentCreator/AssetManager/AssetManager.tsx:61-63 | an empty query shows every asset, in order |
| AssetManager.QueryCaseIgnored | src/components/ContentCreator/AssetManager/AssetManager.tsx:61-63 | a query and its lower-cased form select the same assets |
| AssetManager.UploadedAsset | src/components/ContentCreator/AssetManager/AssetManager.tsx:45-52 | a dropped file becomes an image asset whose url and thumbnail are its object URL |
| AssetManager.WithoutAsset | src/components/ContentCreator/AssetManager/AssetManager.tsx:71 | exactly the assets with another id remain |
| AssetManager.WithoutAssetElementwise | src/components/ContentCreator/AssetManager/AssetManager.tsx:71 | the deletion distributes over concatenation and keeps a single asset iff its id differs, so survivors stay in list order |
| AssetManager.DeleteAbsentAsset | src/components/ContentCreator/AssetManager/AssetManager.tsx:69-72 | deleting an absent id keeps the list as it is |
| AssetManager.AssetLibrary.constructor | src/components/ContentCreator/AssetManager/AssetManager.tsx:25-27 | no assets, empty query, not uploading |
| AssetManager.AssetLibrary.SetSearchQuery | src/components/ContentCreator/AssetManager/AssetManager.tsx:26 | raw setter |
| AssetManager.AssetLibrary.StartDrop | src/components/ContentCreator/AssetManager/AssetManager.tsx:34 | the upload indicator goes on |
| AssetManager.AssetLibrary.FinishDrop | src/components/ContentCreator/AssetManager/AssetManager.tsx:56-57 | the new assets are appended in drop order after the unchanged existing ones; the indicator goes off |
| AssetManager.AssetLibrary.DeleteAsset | src/components/ContentCreator/AssetManager/AssetManager.tsx:69-72 | assets become the filter by id |

## Left out

- React's update scheduling. `deleteSlide` and `reorderSlide` in `src/context/ContentContext.tsx`
  and `slideManagement.ts` read locals that are assigned inside a state updater. Each operation is
  modelled as one sequential step in which the updater has already run.
- Side effects outside the model, whose results are parameters or are dropped:
  - browser fullscreen calls, toasts and console logging;
  - `uuidv4()` and `new Date()` values;
  - `URL.createObjectURL` and `Promise.all` in the asset drop.
- All rendering: JSX, CSS classes, the canvas transform string (which divides by the zoom in
  floating point), drag-and-drop wiring in the slide panel, and DOM event-listener registration
  in the canvas.
- Theme numbers (`headingScale`, spacing) are stored as `real` and never computed with.
  `CanvasControls` zoom is in integer quarter steps. A zoom set elsewhere to a value that is not
  a multiple of 0.25 is not represented.
- `toLowerCase()` is modelled for the ASCII letters A to Z only.
- `parseInt` is given as its result: an integer, or `None` for NaN. Fractional and non-numeric
  input is not modelled further. For negative column counts only the column range and the
  rows below 1 are characterised.
- The `Slide` type declares no `content` field, but the stores use one. It is modelled as an
  optional list, with an absent list read as empty.
- `Content` is a single record with a tag field rather than one constructor per tag. This lets
  the flat store's plain spread produce a block whose tag and payload disagree, as the source
  can. After such a retag the payload record stays that of the old variant. The keys of the new
  variant live in `extra`, and the object as a whole is read through `Keys`.
- The hero carousel's slide contents (JSX) are left out. Only their count, 3, matters.
- PresentationContext.PresentationStore.ReorderSlide: requires a source index inside a non-empty
  list when the indices differ and a presentation is loaded. For any other source, JavaScript
  would splice `undefined` into the slide array.
- TableForm.TableFormState.UpdateHeader: requires an index inside the header list. An index
  outside it would make a sparse array; the form only passes indices of rendered headers.
- TableForm.TableFormState.UpdateCell: requires indices inside the table. The source also writes
  into the shared cell array of the previous rows and of `initialData`; that aliasing is not
  modelled, only the new value of `rows`.
- HeroCarousel.Carousel.GoToSlide: keeps the index in range only for an index in range. The
  indicator dots pass nothing else.
- The store classes' `Valid()` preconditions (`ThemeRegistry`, `GridFormState.ResetPositions`)
  are invariants that the constructors establish and every method keeps. They are not
  restrictions the source places on callers.

## Findings

| source | as written | input that shows it | evidently intended | confidence | as-written member | corrected member |
|---|---|---|---|---|---|---|
| src/context/ContentContext.tsx:159-160 | when the current slide is moved forward, the new index is `targetIndex - 1`, but the slide was inserted at `targetIndex` of the shortened list | slides A, B, C with A current; `reorderSlide(0, 2)` gives B, C, A and selects index 1, which is C | the index follows the moved slide to `targetIndex`, as `src/context/content/slideManagement.ts:88-89` does | not executed | ContentContext.AsWrittenIndexLosesMovedSlide | SlideManagement.ReorderSlide |
