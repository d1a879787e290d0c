# Type explorer model

This project models the core of JsDbg's type explorer, a browser widget for browsing a debugged object. The widget shows the object's type, the type's base types, the native fields of each of those types, and the extension fields, array fields and descriptions that the user has registered for them. The user expands types and searches within them. The user can also enable fields: an enabled field stays shown when its type is collapsed, and enabling it notifies the client.

The model covers:

- `fuzzyMatch`, the fuzzy search of a field name, and the way an aggregate type (a type together with its base types) orders its field lists (`fuzzy.dfy`, `arrange.dfy`);
- the tree of aggregate types, single types and fields, and the paths that name its fields (`tree.dfy`);
- enabling fields and releasing subtrees: `setIsEnabled`, `setChildType` and `disableCompletely` (`lifecycle.dfy`);
- expanding and collapsing, and including base types (`expansion.dfy`);
- the expansion invariant and the well-formedness of the tree (every field in the collection its category names), both kept by every operation that builds or changes the tree (`validity.dfy`);
- the extension listener (`events.dfy`);
- memoised preparation of a type before rendering (`prepare.dfy`);
- which fields a collapsed or expanded type shows, and whether it needs rendering at all (`selection.dfy`);
- `_computePath` and `_enableRemainingPath` (`paths.dfy`);
- the name-collision helper of the field-list renderer (`collisions.dfy`);
- how the four field arrays of a single type alias the list `allFieldArrays` (`aliasing.dfy`);
- the controller's session state: the root type, the notifications received, and the coalescing of re-render requests (`session.dfy`).

The tree is made of values. Aggregate types, single types and fields are datatypes. An operation that changes the tree returns an `Effect`: the new value plus the notifications it sent to the `onFieldChange` callback, in order, each carrying the field's path and its new `isEnabled`. The source's back references (`parentField`, `parentType`, `aggregateType`) become a path prefix passed down the recursion. A field's path, as `_computePath` builds it, has three segments per level: the single type's name, the collection's name, and the field's name.

The source's loops are methods with loop invariants, each proved equal to a specification function. These loops are in `reverseAndFlatten`, the collapsed-view walk, `requiresRendering`, the searches in `_enableRemainingPath`, `findFieldNameCollisions` and `disableCompletely`. The controller is a class. Its fields are the root type, the notification log, the re-render flag, the number of animation frames pending, and how many times the root type has been rendered, by `render` or by an animation frame.

Where the specification and the code disagree, the model follows the code:

- A collapsed single type shows only the enabled fields, whatever their depth. Their collapsed ancestors are not shown.
- A single type requires rendering when it holds an enabled field at any depth, and also when it holds an expanded child type. The statement "requires rendering exactly when some field below is enabled" holds only when nothing below is expanded (`Selection.SingleRequiresRenderingWhenCollapsed`).

Ordering and search scores:

- `fuzzyMatch` keeps its scores as integers, 100 where the source adds 1.
- The score of an empty search term is 0.
- The sort is an insertion sort that places each field before the later fields of equal score. On exact scores, this is the order the stable `Array.prototype.sort` gives. The source's scores are floating-point sums, so two fields whose exact scores tie can still be ordered differently by the source (see `Arrange.ArrangeFields` under "## Left out").

## Model

| member | source | states |
|---|---|---|
| FuzzyMatch.Lower | extensions/type-explorer/type-explorer.js:130-132 | `toLowerCase` keeps the length and lower-cases each character on its own |
| FuzzyMatch.LowerIdempotent | extensions/type-explorer/type-explorer.js:130-132 | lower-casing a query that is already lower-case leaves it unchanged |
| FuzzyMatch.IndexOf | extensions/type-explorer/type-explorer.js:174-177 | `indexOf` returns -1 exactly when the character is absent; otherwise the index of its leftmost occurrence |
| FuzzyMatch.Step | extensions/type-explorer/type-explorer.js:179-209 | a successful match never has a negative score |
| FuzzyMatch.Match | extensions/type-explorer/type-explorer.js:169-210 | an empty term always matches; a term whose first character is not in the body never matches |
| FuzzyMatch.SubsequenceMatches | extensions/type-explorer/type-explorer.js:174-209 | every term that is a subsequence of the body matches, whatever score and transposition state the match carries |
| FuzzyMatch.MatchesSubsequence | extensions/type-explorer/type-explorer.js:169-210 | characters picked in order from the body always match |
| FuzzyMatch.MatchesItself | extensions/type-explorer/type-explorer.js:169-210 | every string matches itself |
| FuzzyMatch.RestWithinBody | extensions/type-explorer/type-explorer.js:200-209 | what remains to search, after a plain step or a transposition, holds only characters of the body |
| FuzzyMatch.MatchedCharactersOccur | extensions/type-explorer/type-explorer.js:174-209 | each character of a matched term occurs in the body |
| FuzzyMatch.SingleCharacter | extensions/type-explorer/type-explorer.js:169-210 | a one-character term matches exactly when the body contains that character |
| FuzzyMatch.TestSuiteCases | extensions/type-explorer/type-explorer.js:215-224 | the prefix and suffix cases of the source's test suite are accepted; a missing character is rejected |
| FuzzyMatch.FuzzySuiteCases | extensions/type-explorer/type-explorer.js:226-231 | characters that skip positions are accepted; an extra character, or a term running past the body, is rejected |
| FuzzyMatch.RejectedForeignCharacter | extensions/type-explorer/type-explorer.js:229 | a term with a character the body lacks is rejected even when the others match |
| FuzzyMatch.RejectedForeignLast | extensions/type-explorer/type-explorer.js:230 | a term whose last character is missing from the body is rejected |
| FuzzyMatch.RejectedTransposedRepeat | extensions/type-explorer/type-explorer.js:236 | after a transposition, the pair's second character cannot be matched again |
| FuzzyMatch.RejectedRepeatedCharacter | extensions/type-explorer/type-explorer.js:237 | a character is not matched twice from one occurrence |
| FuzzyMatch.RejectedDistantSwap | extensions/type-explorer/type-explorer.js:238 | only adjacent characters may come in swapped order |
| FuzzyMatch.RejectedRotation | extensions/type-explorer/type-explorer.js:239 | a rotation of three characters is not a transposition |
| FuzzyMatch.AcceptedShortTransposition | extensions/type-explorer/type-explorer.js:234 | swapping the last two characters of a three-character body is accepted, scoring one skipped position plus the swap's fixed 4 |
| FuzzyMatch.AcceptedLongTransposition | extensions/type-explorer/type-explorer.js:235 | a swapped pair in the middle of the body is accepted with score 6: one skipped position, the swap's 4 and one more skip |
| FuzzyMatch.AcceptedTranspositions | extensions/type-explorer/type-explorer.js:234-235 | an adjacent swap is accepted, and the score counts the skipped positions together with the swap's penalty |
| Arrange.Reversed | extensions/type-explorer/type-explorer.js:118 | the reversed copy holds element i at position n-1-i |
| Arrange.ReverseFlattenIsFlattenOfReversed | extensions/type-explorer/type-explorer.js:117-125 | `reverseAndFlatten` concatenates the lists in reverse order, each list keeping its own order |
| Arrange.ReverseFlattenContents | extensions/type-explorer/type-explorer.js:117-125 | `reverseAndFlatten` keeps every element of every list as many times as it occurs, adding nothing |
| Arrange.ReverseAndFlatten | extensions/type-explorer/type-explorer.js:117-125 | the loop, which concatenates onto an accumulator, computes the reversed flattening |
| Arrange.ScoreAll | extensions/type-explorer/type-explorer.js:130-141 | the map and filter keep exactly the fields that match, each with its own match score |
| Arrange.Matching | extensions/type-explorer/type-explorer.js:130-141 | the kept fields are exactly the listed fields whose lower-cased name matches |
| Arrange.ItemsOfScoreAll | extensions/type-explorer/type-explorer.js:133-145 | stripping the scores off again gives the matching fields in their original order |
| Arrange.InsertPermutes | extensions/type-explorer/type-explorer.js:142-144 | an insertion adds exactly the inserted element |
| Arrange.InsertSorted | extensions/type-explorer/type-explorer.js:142-144 | inserting into a score-ordered list keeps it score-ordered |
| Arrange.InsertPermutesItems | extensions/type-explorer/type-explorer.js:142-145 | inserting a scored field adds exactly that field to the fields shown |
| Arrange.SortPermutes | extensions/type-explorer/type-explorer.js:142-144 | sorting by score is a permutation |
| Arrange.SortPermutesItems | extensions/type-explorer/type-explorer.js:142-145 | the sorted fields are a permutation of the scored fields |
| Arrange.SortOrders | extensions/type-explorer/type-explorer.js:142-144 | the sort by `a.score - b.score` leaves scores non-decreasing |
| Arrange.Insert | extensions/type-explorer/type-explorer.js:142-144 | an insertion adds one element: the inserted one, and otherwise only elements of the list |
| Arrange.SortByScore | extensions/type-explorer/type-explorer.js:142-144 | the sort keeps the number of scored fields |
| Arrange.Arranged | extensions/type-explorer/type-explorer.js:127-147 | the arrangement shows at most the listed fields, and all of them when no query is set |
| Arrange.ArrangeFields | extensions/type-explorer/type-explorer.js:127-147 | the method computes the arrangement: reversed flattening, then the search when a query is set, with fields ordered by exact score |
| Arrange.ArrangedWithoutQuery | extensions/type-explorer/type-explorer.js:127-128 | with no query, every backing type's list is shown whole, base-most type first |
| Arrange.ArrangedWithQueryKeepsMatches | extensions/type-explorer/type-explorer.js:129-146 | with a query, a field is kept as often as it is listed if its lower-cased name matches the lower-cased query, and dropped otherwise |
| Arrange.ArrangedWithQueryMembers | extensions/type-explorer/type-explorer.js:129-146 | with a query, the shown fields are exactly the matching fields of the backing types' lists |
| Arrange.ArrangedWithQueryOrdered | extensions/type-explorer/type-explorer.js:139-145 | with a query, the shown fields come best score first (lowest score value first) |
| TypeTree.CategoryNamed | extensions/type-explorer/type-explorer.js:620-621 | a path segment names a collection exactly when it is that collection's property name |
| TypeTree.WithCollection | extensions/type-explorer/type-explorer.js:286 | writing one collection of a single type leaves the other three and the type's own state unchanged |
| TypeTree.InAllFields | extensions/type-explorer/type-explorer.js:339-341 | `forEachField` reaches every field of every collection |
| TypeTree.NewSingle | extensions/type-explorer/type-explorer.js:249-260 | a new single type has the given module and type name, no fields, and is collapsed and unprepared |
| TypeTree.NewAggregate | extensions/type-explorer/type-explorer.js:8-15 | a new aggregate type has one backing type, starts collapsed and is not prepared |
| TypeTree.FieldPath | extensions/type-explorer/type-explorer.js:595-602 | a field's path adds three segments to the path of the aggregate type holding it |
| TypeTree.FieldsLineAppend | extensions/type-explorer/type-explorer.js:339-341 | visiting two field lists one after the other visits their concatenation |
| TypeTree.SingleLineAllFields | extensions/type-explorer/type-explorer.js:339-341 | a single type's fields are visited collection by collection, in the order of `allFieldArrays` |
| TypeTree.EnabledOnly | extensions/type-explorer/type-explorer.js:344-346 | the selection keeps exactly the enabled entries |
| TypeTree.EnabledOnlyAppend | extensions/type-explorer/type-explorer.js:343-354 | selecting the enabled entries distributes over concatenation |
| TypeTree.Disables | extensions/type-explorer/type-explorer.js:515-524 | one "disabled" notification per entry, carrying its path |
| TypeTree.DisablesAppend | extensions/type-explorer/type-explorer.js:397-405 | the notifications of two walks one after the other are those of the concatenated walk |
| Lifecycle.SetIsEnabled | extensions/type-explorer/type-explorer.js:515-524 | without field selection nothing changes; otherwise the flag takes the new value, and a notification is sent exactly when it changed |
| Lifecycle.DisableField | extensions/type-explorer/type-explorer.js:508-513 | disabling a field keeps its name and collection, clears its flag when selection is allowed, releases its child type to no backing types, and sends only "disabled" notifications, none without selection |
| Lifecycle.DisableFields | extensions/type-explorer/type-explorer.js:399-401 | disabling a field list sends only "disabled" notifications, none without selection |
| Lifecycle.DisableSingle | extensions/type-explorer/type-explorer.js:397-405 | releasing a single type leaves it with no fields, keeps its names, expansion and preparation, and sends only "disabled" notifications, none without selection |
| Lifecycle.DisableSingles | extensions/type-explorer/type-explorer.js:111-113 | releasing backing types sends only "disabled" notifications, none without selection |
| Lifecycle.DisableAggregate | extensions/type-explorer/type-explorer.js:110-115 | releasing an aggregate type leaves no backing types, keeps its other state, and sends only "disabled" notifications, none without selection |
| Lifecycle.DisableFieldNotifies | extensions/type-explorer/type-explorer.js:508-513 | disabling a field notifies, in walk order, every enabled field of its subtree, the field itself first |
| Lifecycle.DisableAggregateNotifies | extensions/type-explorer/type-explorer.js:110-115 | releasing an aggregate type notifies every enabled field below it, backing type by backing type |
| Lifecycle.DisableSinglesNotify | extensions/type-explorer/type-explorer.js:111-113 | releasing a list of backing types notifies their enabled fields in order |
| Lifecycle.DisableSingleNotifies | extensions/type-explorer/type-explorer.js:397-405 | releasing a single type notifies every enabled field below it and leaves all four arrays empty |
| Lifecycle.DisableFieldsNotify | extensions/type-explorer/type-explorer.js:399-401 | disabling a field list notifies its enabled fields and their enabled descendants in walk order |
| Lifecycle.SetChildType | extensions/type-explorer/type-explorer.js:526-536 | the old child type is released, with its notifications, and the field gets a fresh child type, or none for a null name |
| Expansion.ToggleExpansion | extensions/type-explorer/type-explorer.js:78-93 | the primary backing type flips; a base type can be expanded only when base types are included; the type's other state and the backing types' identities are kept |
| Expansion.ToggleSingles | extensions/type-explorer/type-explorer.js:80-82 | each backing type gets the rule of line 81, only the first one counting as primary |
| Expansion.ToggleSingle | extensions/type-explorer/type-explorer.js:81 | a backing type becomes expanded exactly when it was collapsed and is primary or base types are included |
| Expansion.CollapseSingle | extensions/type-explorer/type-explorer.js:85-91 | the recursive collapse changes only the fields of a single type |
| Expansion.CollapseFields | extensions/type-explorer/type-explorer.js:86-90 | the recursive collapse keeps the field list's length |
| Expansion.CollapseField | extensions/type-explorer/type-explorer.js:87-89 | after the collapse, a field's child type is not expanded, and nothing else about the field changes |
| Expansion.ToggleIncludeBaseTypes | extensions/type-explorer/type-explorer.js:99-108 | the flag flips, the primary type is untouched, and each base type's expansion becomes "included and primary expanded" |
| Expansion.IncludeBaseTypesConsistent | extensions/type-explorer/type-explorer.js:99-108 | after the toggle, every base type's expansion agrees with the primary's and with the flag |
| Expansion.IncludeBaseTypesTwice | extensions/type-explorer/type-explorer.js:99-108 | toggling twice restores the type exactly when its base types were already consistent |
| Expansion.ToggleKeepsBaseConsistent | extensions/type-explorer/type-explorer.js:78-93 | toggling the expansion keeps base types consistent with the primary |
| Expansion.ToggleKeepsValid | extensions/type-explorer/type-explorer.js:78-93 | toggling keeps the invariant that nothing inside a collapsed type is expanded |
| Expansion.CollapsedThroughout | extensions/type-explorer/type-explorer.js:83-92 | in a valid collapsed aggregate type, no type at any depth is expanded |
| Expansion.ToggleCollapsesSubtree | extensions/type-explorer/type-explorer.js:83-92 | collapsing an expanded type leaves no type at any depth expanded |
| Expansion.ExpandThenCollapse | extensions/type-explorer/type-explorer.js:78-93 | expanding a valid collapsed type and collapsing it again gives back the same type |
| Expansion.ToggleChangesOnlyExpansion | extensions/type-explorer/type-explorer.js:78-93 | toggling changes nothing in the tree except expansion flags |
| Expansion.IncludeBaseTypesChangesOnlyExpansion | extensions/type-explorer/type-explorer.js:99-108 | including base types changes only the flag and the base types' expansion |
| Expansion.IncludeBaseTypesKeepsValid | extensions/type-explorer/type-explorer.js:99-108 | including base types keeps the expansion invariant |
| Validity.NewAggregateGood | extensions/type-explorer/type-explorer.js:8-15 | a new type is valid, collapsed throughout, well formed, and does not include its base types |
| Validity.PrepareAggregateGood | extensions/type-explorer/type-explorer.js:54-75 | preparation keeps the three invariants and the type's expansion: the base types it pushes are collapsed, and the fields it adds have new collapsed child types and sit in the collection of their category |
| Validity.PrepareSingleGood | extensions/type-explorer/type-explorer.js:322-335 | a single type's preparation appends only fields with new child types, each to the collection of its category, so the invariants hold under either expansion of the owner |
| Validity.SetChildTypeGood | extensions/type-explorer/type-explorer.js:526-536 | after `setChildType` the field's child type is new, collapsed and well formed, whatever it held before |
| Validity.HandleEventGood | extensions/type-explorer/type-explorer.js:282-312 | every listener event keeps the three invariants of the monitored single type: added fields go to the monitored collection, and renamed or retyped fields stay in it |
| Validity.EnableInAggregateGood | extensions/type-explorer/type-explorer.js:610-643 | the walk of `_enableRemainingPath` keeps the three invariants and the expansion of every type on its way; it moves no field between collections |
| Validity.ToggleWellFormed | extensions/type-explorer/type-explorer.js:77-93 | `toggleExpansion` moves no field between collections, at any depth |
| Validity.ToggleExpansionGood | extensions/type-explorer/type-explorer.js:77-93 | `toggleExpansion` keeps the three invariants, including that only a prepared type includes its base types |
| Validity.IncludeBaseTypesGood | extensions/type-explorer/type-explorer.js:99-108 | `toggleIncludeBaseTypes` on a prepared type keeps the three invariants |
| Extensions.ChildTypeName | extensions/type-explorer/type-explorer.js:270 | no type name, or an empty one, gives no child type; a fixed name is used as it is |
| Extensions.AddExtensionField | extensions/type-explorer/type-explorer.js:264-276 | a primary extension is ignored; any other extension appends one disabled field, which is enabled, with a notification, when created from this aggregate type |
| Extensions.AddExtensionFields | extensions/type-explorer/type-explorer.js:278-280 | seeding from the registry touches only the monitored collection |
| Extensions.AddExtensionFieldAppends | extensions/type-explorer/type-explorer.js:270-271 | an `add` pushes the new field at the end of the collection |
| Extensions.SeededFields | extensions/type-explorer/type-explorer.js:278-280 | the seeded fields carry the names of the non-primary registered extensions, in registry order |
| Extensions.AddExtensionFieldsAppends | extensions/type-explorer/type-explorer.js:278-280 | seeding appends exactly the seeded fields to the collection |
| Extensions.SeededFieldsOwner | extensions/type-explorer/type-explorer.js:270 | the seeded fields depend only on the owning type's module and name |
| Extensions.Names | extensions/type-explorer/type-explorer.js:287 | the names of a field list, position by position |
| Extensions.Without | extensions/type-explorer/type-explorer.js:286-293 | the filter keeps exactly the fields of other names |
| Extensions.Named | extensions/type-explorer/type-explorer.js:287-289 | the fields the filter drops are exactly those of the removed name |
| Extensions.RemoveNamed | extensions/type-explorer/type-explorer.js:285-293 | the filter keeps only fields of the list that have another name, and sends only "disabled" notifications, none without selection |
| Extensions.RenameNamed | extensions/type-explorer/type-explorer.js:294-302 | a rename keeps the number of fields and everything about each field but its name, its enabled state included; without selection it sends nothing |
| Extensions.RetypeNamed | extensions/type-explorer/type-explorer.js:303-308 | a type change keeps the number of fields and each field's name, collection and enabled state, and sends only "disabled" notifications, none without selection |
| Extensions.RemoveNamedMeaning | extensions/type-explorer/type-explorer.js:285-293 | a `remove` keeps the other fields and releases every removed field, notifying its enabled fields and their enabled descendants |
| Extensions.RenameNamedValue | extensions/type-explorer/type-explorer.js:294-302 | a `rename` renames exactly the fields of that name, in place, keeping everything else about them |
| Extensions.RenameNamedNotifies | extensions/type-explorer/type-explorer.js:294-302 | each enabled field of that name is reported disabled under the old path, then enabled under the new path |
| Extensions.RetypeNamedValue | extensions/type-explorer/type-explorer.js:303-308 | a `typechange` gives exactly the fields of that name a fresh child type |
| Extensions.RetypeNamedNotifies | extensions/type-explorer/type-explorer.js:304-308 | a `typechange` notifies the enabled fields of the released child types |
| Extensions.HandleEvent | extensions/type-explorer/type-explorer.js:282-312 | each event changes only the monitored collection, never the type's name, expansion or preparation |
| Extensions.AddAppendsOne | extensions/type-explorer/type-explorer.js:283-284 | an `add` appends exactly one field with the extension's name, enabled exactly when created here; a primary extension changes nothing |
| Extensions.RemoveDropsExactly | extensions/type-explorer/type-explorer.js:285-293 | after a `remove`, the collection holds exactly the former fields of other names |
| Extensions.RenameBack | extensions/type-explorer/type-explorer.js:294-302 | renaming to a fresh name and back restores the collection |
| Preparation.StripPointers | extensions/type-explorer/type-explorer.js:328 | the pointer stars are stripped from the end only: the result is a prefix, followed only by `*`, and does not end in `*` |
| Preparation.StripPointersIdempotent | extensions/type-explorer/type-explorer.js:328 | stripping twice is stripping once |
| Preparation.NativeFieldOf | extensions/type-explorer/type-explorer.js:327-331 | a native field is disabled, in the native collection, and has a child type named by its dereferenced type |
| Preparation.NativeFieldsOf | extensions/type-explorer/type-explorer.js:327-331 | one native field per field the debugger reports, in order |
| Preparation.PrepareSingle | extensions/type-explorer/type-explorer.js:315-320 | preparation is memoised: a prepared single type is returned unchanged; afterwards it is prepared, under the same name and expansion |
| Preparation.PrepareSingleContents | extensions/type-explorer/type-explorer.js:322-337 | the first preparation appends the native fields, then the extension fields of each extension collection |
| Preparation.PrepareSingles | extensions/type-explorer/type-explorer.js:68 | every backing type is prepared |
| Preparation.PrepareAggregate | extensions/type-explorer/type-explorer.js:47-52 | a prepared aggregate type is returned unchanged, without notifications; an unprepared one becomes prepared |
| Preparation.PrepareOnce | extensions/type-explorer/type-explorer.js:47-52 | preparing twice is preparing once |
| Preparation.PrepareAggregateBackingTypes | extensions/type-explorer/type-explorer.js:54-69 | the base types come after the primary type in the debugger's order, and every backing type ends up prepared |
| Preparation.PrepareNewDefaultInclusion | extensions/type-explorer/type-explorer.js:70-73 | a new type includes its base types when the session asks for it by default or when it has no native fields, and its base types agree with the flag |
| Selection.Own | extensions/type-explorer/type-explorer.js:369-371 | the fields of a list, each under its own path |
| Selection.EnabledFieldLine | extensions/type-explorer/type-explorer.js:343-354 | under a collapsed type, a field contributes itself if enabled, followed by the enabled fields of its child type's backing types |
| Selection.EnabledSingleLine | extensions/type-explorer/type-explorer.js:348-351 | a single type contributes the enabled fields of its four collections in order |
| Selection.ConsiderFieldWhenCollapsed | extensions/type-explorer/type-explorer.js:343-354 | the recursive walk appends to the shown list exactly the enabled fields of the field's subtree, in walk order |
| Selection.ConsiderSinglesWhenCollapsed | extensions/type-explorer/type-explorer.js:348-352 | the loop over a child type's backing types appends their enabled fields in order |
| Selection.ForEachFieldWhenCollapsed | extensions/type-explorer/type-explorer.js:349-351 | a backing type's walk appends its enabled fields, collection by collection |
| Selection.ConsiderFieldsWhenCollapsed | extensions/type-explorer/type-explorer.js:374-376 | the loop over a field list appends the enabled fields of each field's subtree |
| Selection.SelectFieldsToRender | extensions/type-explorer/type-explorer.js:368-379 | the method computes the selection: the whole list when expanded, the enabled fields of the subtrees when collapsed |
| Selection.SelectedExpanded | extensions/type-explorer/type-explorer.js:369-370 | an expanded type shows its list as it is |
| Selection.SelectedCollapsed | extensions/type-explorer/type-explorer.js:371-378 | a collapsed type shows exactly the enabled fields at any depth below the list, including each enabled field of the list itself |
| Selection.OwnInLine | extensions/type-explorer/type-explorer.js:339-341 | every field of a list is visited under its own path |
| Selection.SelectedLists | extensions/type-explorer/type-explorer.js:148-166 | each backing type contributes its own selection of one collection |
| Selection.GetFieldsToRender | extensions/type-explorer/type-explorer.js:148-166 | the method computes the aggregate's arrangement of its backing types' selections |
| Selection.FieldsToRenderWithoutQuery | extensions/type-explorer/type-explorer.js:148-151 | with no query, the selections are shown base-most type first, each keeping its order |
| Selection.FieldsRequireRenderingAppend | extensions/type-explorer/type-explorer.js:358-364 | the accumulator over two lists is the disjunction of the two |
| Selection.FieldRequiresRenderingMeaning | extensions/type-explorer/type-explorer.js:358-364 | a field requires rendering exactly when its subtree holds an enabled field or an expanded type, the type being reached through disabled fields |
| Selection.SinglesRequireRenderingMeaning | extensions/type-explorer/type-explorer.js:40-42 | a list of backing types requires rendering exactly when one of them holds such a field |
| Selection.SingleRequiresRenderingMeaning | extensions/type-explorer/type-explorer.js:356-366 | a single type requires rendering exactly when some field below it is enabled or has an expanded child type |
| Selection.FieldsRequireRenderingMeaning | extensions/type-explorer/type-explorer.js:358-364 | a field list requires rendering exactly when some entry of its walk does |
| Selection.SingleRequiresRenderingWhenCollapsed | extensions/type-explorer/type-explorer.js:356-366 | when nothing below is expanded, a single type requires rendering exactly when its collapsed view shows something |
| Selection.NoneExpandedSingleLine | extensions/type-explorer/type-explorer.js:343-354 | when nothing below a single type is expanded, no visited field has an expanded child type |
| Selection.RequiresRenderingAggregate | extensions/type-explorer/type-explorer.js:34-45 | the method computes an aggregate type's `requiresRendering`: true when expanded, otherwise the disjunction over its backing types |
| Selection.SinglesRequireAppend | extensions/type-explorer/type-explorer.js:40-42 | the accumulator over the backing types grows one disjunct per backing type |
| Selection.RequiresRenderingSingle | extensions/type-explorer/type-explorer.js:356-366 | the method computes a single type's `requiresRendering` by its loop over `forEachField` |
| Paths.ComputePath | extensions/type-explorer/type-explorer.js:588-608 | a field's path has three segments per level of the tree |
| Paths.WithFieldAt | extensions/type-explorer/type-explorer.js:614 | replacing one field keeps every aggregate type's shape and flags |
| Paths.WithFieldAtPuts | extensions/type-explorer/type-explorer.js:614 | after the replacement, the location holds the new field |
| Paths.FirstOf | extensions/type-explorer/type-explorer.js:626-639 | the first position whose element has the name: every earlier element has another name, and none when no element has it |
| Paths.FirstBacking | extensions/type-explorer/type-explorer.js:635-639 | the search finds the first backing type of the name, and none when no backing type has it |
| Paths.FirstField | extensions/type-explorer/type-explorer.js:626-630 | the search finds the first field of the name, and none when no field has it |
| Paths.FindFirst | extensions/type-explorer/type-explorer.js:626-639 | each of the two search loops computes the first position of the name, and none when no element has it |
| Paths.Locate | extensions/type-explorer/type-explorer.js:610-643 | a path the walk resolves is read three segments per level, to its end, and names at least one field |
| Paths.EnableInAggregate | extensions/type-explorer/type-explorer.js:632-640 | an exhausted path changes nothing; otherwise the type is prepared before the walk goes on, and the search query is kept |
| Paths.EnableInSingle | extensions/type-explorer/type-explorer.js:619-631 | the single type keeps its names, expansion and preparation, and each collection its length |
| Paths.EnableInField | extensions/type-explorer/type-explorer.js:612-618 | the field keeps its name and collection and whether it has a child type; at the path's end it is enabled when selection is allowed |
| Paths.LocateSound | extensions/type-explorer/type-explorer.js:610-643 | a path the walk resolves leads to a field at an unambiguous location, whose computed path is that path |
| Paths.LocateComputePath | extensions/type-explorer/type-explorer.js:588-643 | the path `_computePath` reports for a field that is the first of its name at every level leads back to that field |
| Paths.EnableMissing | extensions/type-explorer/type-explorer.js:610-643 | when the aggregate types the walk passes through are prepared or released, a path that names no field changes nothing and notifies nobody |
| Paths.EnableFound | extensions/type-explorer/type-explorer.js:610-643 | when the aggregate types the walk passes through are prepared or released, a path that names a field enables exactly that field, with a notification under its own path, and changes nothing else |
| Paths.LocateLocates | extensions/type-explorer/type-explorer.js:617-639 | what the walk resolves is a location in the tree |
| Paths.EnableOneLevel | extensions/type-explorer/type-explorer.js:617-639 | one level of the walk: the backing type, then the collection, then the field, and on along the field's child type |
| Paths.EnableComputedPath | extensions/type-explorer/type-explorer.js:575-643 | in a well-formed tree (every field in the collection its category names, which `Validity.GoodAggregate` shows of every tree the operations build), for a field that is the first of its name at every level on the way to it (`Unambiguous`), and when the aggregate types on the way to it are prepared or released, enabling the field by the path computed for it enables that field and nothing else |
| Paths.ReadyToAlong | extensions/type-explorer/type-explorer.js:610-643 | on a path that leads to a field, the types the walk prepares are exactly the types on the way to that field |
| Paths.PathInLine | extensions/type-explorer/type-explorer.js:588-608 | every located field is visited under its computed path |
| Paths.InFieldsLine | extensions/type-explorer/type-explorer.js:339-341 | what a field's subtree visits is visited by its list |
| Paths.InSingleLine | extensions/type-explorer/type-explorer.js:339-341 | what a collection visits is visited by its single type |
| Paths.InSinglesLine | extensions/type-explorer/type-explorer.js:348-352 | what a backing type visits is visited by the aggregate type |
| Paths.EnableRemainingPath | extensions/type-explorer/type-explorer.js:632-640 | the method computes the aggregate step of `_enableRemainingPath` |
| Paths.EnableRemainingInSingle | extensions/type-explorer/type-explorer.js:619-631 | the method computes the single-type step |
| Paths.EnableRemainingInField | extensions/type-explorer/type-explorer.js:612-618 | the method computes the field step |
| Collisions.OwnNames | extensions/type-explorer/type-explorer.js:755-765 | the recorded names are exactly those of the own entries |
| Collisions.OwnCountAppend | extensions/type-explorer/type-explorer.js:777-781 | own entries of concatenated lists add up |
| Collisions.FindFieldNameCollisions | extensions/type-explorer/type-explorer.js:751-768 | corrected: a name collides exactly when at least two own entries carry it |
| Collisions.FindFieldNameCollisionsAsWritten | extensions/type-explorer/type-explorer.js:751-768 | as written: a name is also reported when a single own entry carries a name every object inherits |
| Collisions.ConstructorCollidesAsWritten | extensions/type-explorer/type-explorer.js:760-761 | a lone field named `constructor` is reported as colliding as written, and not by the corrected version |
| Collisions.ExtendedCollisions | extensions/type-explorer/type-explorer.js:777-781 | in the extended list, a name collides when its own entries across the three lists add up to two |
| Collisions.OwnEntries | extensions/type-explorer/type-explorer.js:756-758 | an entry with a three-segment relative path is one of the type's own fields, under its own path; the others lie deeper |
| Collisions.DeeperEntries | extensions/type-explorer/type-explorer.js:756-758 | entries below a field's child type are deeper than the field |
| Collisions.DeeperSingles | extensions/type-explorer/type-explorer.js:756-758 | entries below a list of backing types are deeper than the list's prefix |
| Collisions.SelectedOwn | extensions/type-explorer/type-explorer.js:773-780 | in a rendered list, an own entry is a field of the selected collection |
| FieldArrays.FieldArray.constructor | extensions/type-explorer/type-explorer.js:254-257 | a new array holds the given fields |
| FieldArrays.SingleType.constructor | extensions/type-explorer/type-explorer.js:249-260 | four fresh, distinct, empty arrays, and `allFieldArrays` lists them |
| FieldArrays.SingleType.Push | extensions/type-explorer/type-explorer.js:271 | the push appends to that array in place, and the other arrays are unchanged |
| FieldArrays.SingleType.RemoveAsWritten | extensions/type-explorer/type-explorer.js:286-293 | as written: the property now refers to a fresh filtered array, and `forEachField` still visits the old one |
| FieldArrays.SingleType.Remove | extensions/type-explorer/type-explorer.js:286-293 | corrected: the array is filtered in place |
| FieldArrays.SingleType.DisableCompletely | extensions/type-explorer/type-explorer.js:397-405 | visits what `forEachField` visits, then empties every array in `allFieldArrays` |
| FieldArrays.AliasedVisitsCurrent | extensions/type-explorer/type-explorer.js:339-341 | while the list still holds the properties' arrays, `forEachField` visits exactly the type's fields |
| FieldArrays.AddThenRemoveAsWritten | extensions/type-explorer/type-explorer.js:282-293 | as written: after an add and the listener's remove the type holds no field, but the array `allFieldArrays` lists for the extended fields still holds the removed one and is no longer the property's array |
| FieldArrays.RemoveThenAddAsWritten | extensions/type-explorer/type-explorer.js:282-312 | as written: after add, remove, add, the enabled field is never visited, so the type does not ask to be rendered and is not disabled |
| FieldArrays.RemoveThenAdd | extensions/type-explorer/type-explorer.js:282-312 | corrected: the same steps visit exactly the type's fields, and `disableCompletely` empties the type |
| Session.Explorer.constructor | extensions/type-explorer/type-explorer.js:538-543 | a session starts with a fresh root type of the object's type, no notifications and no pending render |
| Session.Explorer.Render | extensions/type-explorer/type-explorer.js:545-558 | `render` clears the request flag and renders the root type once |
| Session.Explorer.RequestRerender | extensions/type-explorer/type-explorer.js:560-566 | a frame is scheduled only when no request is standing |
| Session.Explorer.AnimationFrame | extensions/type-explorer/type-explorer.js:567-572 | the frame renders exactly when a request is standing, and clears it |
| Session.Explorer.ToggleExpansion | extensions/type-explorer/type-explorer.js:583-586 | the root type toggles, and a re-render is requested but nothing is rendered yet |
| Session.Explorer.EnableField | extensions/type-explorer/type-explorer.js:575-581 | the path is followed from the root, and the callback receives the notifications of the walk; nothing is rendered or requested |
| Session.Explorer.DeliverEvent | extensions/type-explorer/type-explorer.js:282-312 | an event changes the monitored single type in its place in the tree, the callback hears of it, and a re-render is requested but nothing is rendered yet |
| Session.CoalescedRequests | extensions/type-explorer/type-explorer.js:560-573 | any number of requests before a frame give one frame and one render |

## Left out

- Rendering to the DOM is not modelled. This covers `_renderType`, `_renderFieldList` (apart from its collision lookup), `_renderField`, the editors of user extensions, the checkbox and the search box. Rendering appears only as a count of renders.
- Session.Explorer.Render and Session.Explorer.AnimationFrame leave the root type unchanged. The source's `_renderType` (type-explorer.js:556, 570) prepares every type that requires rendering (725), and, through the shown fields, their child types (893, 980). The model drops that preparation and the notifications it may raise; a caller prepares the tree with `PrepareAggregate`.
- The debugger and the extension registry (`DbgObject.fields`, `baseTypes`, `getAllExtensions`) are modelled as a data parameter, `Backend`. Promises are modelled as sequential evaluation. The order in which the source's `Promise.map` prepares backing types in parallel is not modelled.
- `UserDbgObjectExtensions.GetCreationContext` is modelled as a boolean, `createdHere`, on the extension.
- `EnsureLoaded` and the user-extension editing (Edit, Delete, Create) are not modelled.
- `getNestedField`, the getters, `clientContext`, `names` and `allGetters` of a notification are left out. A notification keeps only its path and `isEnabled`.
- The listener registration (`addListener`) is modelled as the delivery of one event to one prepared single type. The broadcast to all listeners, and listeners that outlive a released type, are not modelled.
- `console.assert` is not modelled. The "preparing twice" throw is not modelled either: memoisation makes it unreachable.
- The model lower-cases ASCII letters only, where `toLowerCase` covers all of Unicode. Its strings are sequences of characters, where `indexOf` and `substr` in `fuzzyMatch` (type-explorer.js:169-210) count UTF-16 code units, so scores and matches can differ for characters outside the Basic Multilingual Plane.
- An aggregate type whose backing types were released throws on `isExpanded()` in the source. The model treats it as collapsed, and preparing it as doing nothing.
- A path segment other than the four collection names names nothing, where JavaScript would look up any property of the object under that name.
- `_renderField` looks a name up with `name in nameCollisions` (type-explorer.js:933), on a plain object as well, so a field named `constructor` is shown qualified with its type's name even with a corrected collision set. That lookup is not modelled; a fix has to cover both lookups.
- `wtf-helpers.js` is a caller only and is not part of this model.
- `setSearchQuery` and `hasBaseTypes` are plain accessors and not modelled as operations. The query is a field of the aggregate type.
- Expansion.ToggleCollapsesSubtree: requires the tree invariant `ValidAggregate` (nothing expanded inside a collapsed type). The invariant holds of a new type and is kept by both toggles, by preparation, by the extension listener, by `setChildType` and by the walk of `_enableRemainingPath` (`Validity`). Preparation and the walk keep it only where no unprepared type includes its base types (`Unincluded`): preparing a type that includes them while expanded would push collapsed base types under an expanded type. That holds of every new type and is kept by the same operations, and `toggleIncludeBaseTypes` keeps it on the prepared types whose inclusion control is shown (type-explorer.js:699-706, 725-738).
- Selection.SingleRequiresRenderingWhenCollapsed: the statement "requires rendering exactly when an enabled field is below" holds only when nothing below is expanded. In general an expanded child type also requires rendering (`SingleRequiresRenderingMeaning`).
- Paths.EnableFound: stated for a tree in which each aggregate type the walk passes through is already prepared or released (`ReadyAlong`); types off the path, such as the unprepared child types of native fields, are unconstrained. For an unprepared type on the path, the walk's preparation is modelled by `EnableInAggregate` but not summarised by a lemma.
- Paths.EnableMissing: stated, like `EnableFound`, only for a tree in which each aggregate type the walk passes through is already prepared or released (`ReadyAlong`). For an unprepared type on the path, that the walk changes nothing when the path names no field is not stated.
- Paths.EnableComputedPath: stated only when the aggregate types on the way to the field are already prepared or released (`ReadyTo`), and only for a field that is the first of its name at every level (`Unambiguous`). For a later field of the same name, the source's walk stops at the first match and enables that field instead; the model does the same, but states nothing about it. The lemma also requires the tree to be well formed (`AggregateWellFormed`); that is not a gap, because `Validity.GoodAggregate` includes it and every operation that builds or changes the tree keeps it.
- Paths.LocateComputePath: requires each field on the way to be the first of its name at its level, because the walk stops at the first name match. It also requires a well-formed tree, which `Validity.GoodAggregate` establishes for every tree the operations build.
- Collisions.FindFieldNameCollisions: an entry belongs to the rendered aggregate type when its relative path has three segments. `OwnEntries` shows this agrees with the source's identity test on `parentType.aggregateType`.
- FieldArrays.SingleType: the fields in the arrays are values. A field shared between two arrays, and a field mutated through one array, are not modelled as separate objects. Only the arrays are.
- Arrange.ArrangeFields: orders fields by their exact scores, scaled to integers. The source adds its scores up in binary floating point (`firstCharacterIndex / 100`, then `+=`, type-explorer.js:185-198) and sorts by their difference (142-144). So two fields whose exact scores tie, but whose scores are summed by different steps, can differ in the last bit, and the source can then order them differently from the model. For example, with query "abc", the native fields "bbbaaac" and "bbcaacb" both have exact score 6.03. In double precision, the first sum is 6.03 and the second is 6.029999999999999, so the source shows "bbcaacb" first; the model keeps "bbbaaac" first.
- Arrange.SortOrders: states that scores are non-decreasing and that nothing is added or lost; that fields of equal score keep their relative order is not stated.
- Extensions.ChildTypeName: a type name given as a function is applied to the owning type's name, and its result is not constrained.
- Extensions.HandleEvent: a `typechange` argument is an optional type name. Other argument types are not modelled.
- Extensions.HandleEvent: a `remove` event filters the collection in place in the tree, the intended behaviour (see Findings). As written, the source rebinds the property to a new array while `allFieldArrays` keeps the old one, so the following go on seeing the removed fields: `forEachField` (type-explorer.js:339-341), `requiresRendering` (356-366), the child walk of `considerFieldWhenCollapsed` (343-354), the collapse in `toggleExpansion` (83-92) and `disableCompletely` (397-405). Only `FieldArrays` models that as-written behaviour.

## Findings

| source | as written | input that shows it | evidently intended | confidence | as-written member | corrected member |
|---|---|---|---|---|---|---|
| extensions/type-explorer/type-explorer.js:286-293 | the `remove` operation assigns a new filtered array to `that[arrayName]`, while `allFieldArrays` (line 258) keeps the old array, so `forEachField` (339-341) no longer sees the collection's current fields | add extension field "a", remove "a", add an enabled extension field "b": `forEachField` visits only "a", so `requiresRendering` is false and `disableCompletely` (397-405) misses "b" | the collection is filtered in place, so `allFieldArrays` keeps listing the current arrays | not executed | FieldArrays.RemoveThenAddAsWritten | FieldArrays.RemoveThenAdd |
| extensions/type-explorer/type-explorer.js:751-768 | `f.name in names` tests a plain object, which also answers true for names inherited from `Object.prototype` | one own field named `constructor`: it is reported as a collision | a name is a collision only when two own fields carry it | not executed | Collisions.ConstructorCollidesAsWritten | Collisions.FindFieldNameCollisions |
