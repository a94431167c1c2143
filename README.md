# Property tags in avatar speech: a Dafny model

This project models the one piece of logic the real-estate avatar front-end
owns: how the avatar's spoken text becomes the set of property cards shown
beside the video. As the conversational avatar speaks, each fragment of its
speech goes through three steps:

- it is scanned for a tag `[ID:<token>]`;
- the token is looked up in the static property catalog;
- the view's `properties` state is set to the listing found, or left alone.

A session start, a stream disconnect and the component's unmount also write
that state. Two revisions of the view are modelled side by side:

- the current one accepts letters and digits in the token and guards the
  lookup against a missing catalog;
- the older one accepts digits only, dereferences the catalog path without a
  guard, and leaves the display alone when a session starts.

Lemmas state where the two revisions agree and where they differ. The
catalog utilities (filtering and sorting listings) are modelled as well.

Modules:

- `Wrappers` (`wrappers.dfy`): `Option` and `Result`.
- `PropertyTypes` (`property_types.dfy`): the `Property` record, the shape of
  the imported catalog document (`catalogo_immobili.immobili`, each level may
  be absent), and `Array.prototype.find` by identifier.
- `TagScan` (`tag_scan.dfy`): the regular expression `/\[ID:(C+)\]/` under
  `String.prototype.match`, for a token class C. `TagAt` is the declarative
  specification of a match. `Extract` returns the token of the leftmost
  match.
- `InteractiveAvatar` (`interactive_avatar.dfy`): the current revision. It
  holds the extractor, the guarded lookup and the start checks. Its reducer
  is a function `Step` over events, and the class `AvatarView` has one method
  per event handler, each proved to leave `properties == Step(...)`.
- `LegacyInteractiveAvatar` (`legacy_interactive_avatar.dfy`): the older
  revision, with its class `LegacyAvatarView`. A lookup on a missing catalog
  path throws a `TypeError` here, and the lemmas comparing the revisions live
  in this module.
- `PropertyUtils` (`property_utils.dfy`): `filterProperties` and
  `sortProperties` as functions over sequences.

The catalog is a parameter (`Option<ImmobiliData>`), since the JSON file is
not part of this model. Prices, room counts and areas are unbounded
integers.

## Model

| member | source | states |
|---|---|---|
| `PropertyTypes.Listings` | components/InteractiveAvatar.tsx:86 | the listings array exists exactly when the document, `catalogo_immobili` and `immobili` are all present |
| `PropertyTypes.FirstIndexWithId` | components/InteractiveAvatar.tsx:90 | the index returned holds the identifier and no earlier index does; None means no element has it |
| `PropertyTypes.Find` | components/InteractiveAvatar.tsx:90 | `find` returns an element with the identifier exactly when one exists, and it is the first such element |
| `TagScan.RunLength` | components/InteractiveAvatar.tsx:81 | the greedy `+` run: every character counted is in the class, and the next one is not |
| `TagScan.TagAtIff` | components/InteractiveAvatar.tsx:81 | a tag stands at a position exactly when the opener, a non-empty maximal run and `]` follow there, and the token is that run |
| `TagScan.ScanFrom` | components/InteractiveAvatar.tsx:81 | the first position at or after `i` holding a tag, with no tag between `i` and it; None means no tag from `i` on |
| `TagScan.NoTagHere` | components/InteractiveAvatar.tsx:81 | where the executable test fails, no token forms a tag |
| `TagScan.LeftmostTag` | components/InteractiveAvatar.tsx:81 | the position of the leftmost tag, or None exactly when the text has no tag |
| `TagScan.Extract` | components/InteractiveAvatar.tsx:80-83 | the token is non-empty, in the class, `[ID:`+token+`]` occurs in the text, and it belongs to the leftmost tag; None exactly when there is no tag |
| `TagScan.TagOccurs` | components/InteractiveAvatar.tsx:81 | a tag at a position means its full text occurs in the message |
| `TagScan.TagUnique` | components/InteractiveAvatar.tsx:81 | at one position at most one token forms a tag |
| `TagScan.DigitTagIsAlphanumericTag` | a/components/InteractiveAvatar.tsx:54 | every digits-only tag is also a letters-and-digits tag |
| `TagScan.NoTagWithoutBracket` | components/InteractiveAvatar.tsx:81 | text without `[` holds no tag |
| `TagScan.NoBracketAfterOpening` | components/InteractiveAvatar.tsx:81 | past its first character the text `[ID:`+token+`]` holds no `[` |
| `TagScan.SplitTagNeverMatched` | components/InteractiveAvatar.tsx:81 | a tag cut at any point inside it, each piece surrounded by text without `[`, is matched in neither piece |
| `TagScan.ExtractAfterPlainPrefix` | components/InteractiveAvatar.tsx:81-82 | a tag preceded only by text without `[` is the one extracted, whatever follows it |
| `InteractiveAvatar.ExtractPropertyId` | components/InteractiveAvatar.tsx:80-83 | the token is non-empty and alphanumeric, and its tag occurs in the message and is the leftmost one, so an earlier malformed tag is skipped; null exactly when no well-formed tag exists |
| `InteractiveAvatar.FindPropertyById` | components/InteractiveAvatar.tsx:85-91 | undefined when the catalog structure is missing; otherwise the first listing with an equal identifier, present exactly when one exists |
| `InteractiveAvatar.StartRefusal` | components/InteractiveAvatar.tsx:97-108 | a falsy knowledge id gives its error (also when both settings are missing); otherwise a falsy avatar name gives its error; no error exactly when both are truthy |
| `InteractiveAvatar.ClassifyFragment` | components/InteractiveAvatar.tsx:138-146 | no tag, a shown listing whose id is the extracted token and which the lookup returned, or a token the lookup misses, which is the case that logs a warning |
| `InteractiveAvatar.Step` | components/InteractiveAvatar.tsx:93-175 | start (95), disconnect (132) and unmount (174) give `[]`; a fragment whose token finds a listing gives exactly that listing (143); a fragment with no token or a missed lookup keeps the display (140-146); the result is the old display or at most one listing |
| `InteractiveAvatar.Replay` | components/InteractiveAvatar.tsx:93-175 | events handled one at a time in arrival order leave the display untouched or at most one listing, and empty when the last event is a start, disconnect or unmount |
| `InteractiveAvatar.FragmentReplacesDisplay` | components/InteractiveAvatar.tsx:140-143 | a fragment whose tag names a found listing sets the display to exactly that listing, whatever it held |
| `InteractiveAvatar.FragmentWithoutMatchKeepsDisplay` | components/InteractiveAvatar.tsx:140-146 | a fragment with no tag, or whose tag the catalog misses, leaves the display unchanged |
| `InteractiveAvatar.FragmentIdempotent` | components/InteractiveAvatar.tsx:143 | handling a fragment twice equals handling it once |
| `InteractiveAvatar.ResetEmptiesDisplay` | components/InteractiveAvatar.tsx:93-175 | start, disconnect and unmount set the display to empty, whatever it held |
| `InteractiveAvatar.StepKeepsDisplayable` | components/InteractiveAvatar.tsx:135-148 | after any event the display is empty or one listing of the loaded catalog |
| `InteractiveAvatar.ReplayKeepsDisplayable` | components/InteractiveAvatar.tsx:93-175 | the same holds after any sequence of events |
| `InteractiveAvatar.ReplayAppend` | components/InteractiveAvatar.tsx:93-175 | events are handled one at a time in arrival order |
| `InteractiveAvatar.HistoryEndingInResetIsEmpty` | components/InteractiveAvatar.tsx:130-175 | any history that ends in a disconnect or unmount leaves the display empty |
| `InteractiveAvatar.FirstFragmentShowsA1` | components/InteractiveAvatar.tsx:81-82 | `Questa è la casa [ID:A1] in centro` yields `A1` |
| `InteractiveAvatar.ThirdFragmentShowsB2` | components/InteractiveAvatar.tsx:81-82 | `guardi anche [ID:B2]` yields `B2` |
| `InteractiveAvatar.SplitTagIsMissed` | components/InteractiveAvatar.tsx:135-138 | an example: neither `[ID:A` nor `1] bella casa` contains a tag |
| `InteractiveAvatar.TwoListingLookup` | components/InteractiveAvatar.tsx:90 | in the catalog `[A1, B2]` each identifier finds its own listing |
| `InteractiveAvatar.ScenarioFirstTagShows` | components/InteractiveAvatar.tsx:135-148 | over the catalog `[A1, B2]`, the first tagged fragment shows `[A1]` |
| `InteractiveAvatar.ScenarioUntaggedKeeps` | components/InteractiveAvatar.tsx:140-147 | an untagged fragment keeps `[A1]` |
| `InteractiveAvatar.ScenarioSecondTagReplaces` | components/InteractiveAvatar.tsx:140-143 | a later `[ID:B2]` replaces `[A1]` by `[B2]`; listings do not accumulate |
| `InteractiveAvatar.ScenarioSplitTagKeeps` | components/InteractiveAvatar.tsx:135-148 | the two halves of a split tag each leave the display unchanged |
| `InteractiveAvatar.AvatarView.constructor` | components/InteractiveAvatar.tsx:51-53 | the view starts with no listings and no error |
| `InteractiveAvatar.AvatarView.StartSession` | components/InteractiveAvatar.tsx:93-108 | the display is cleared before validation, so a refused start also leaves it empty; the error becomes the refusal, if any; the start proceeds exactly when there is none |
| `InteractiveAvatar.AvatarView.TalkingMessage` | components/InteractiveAvatar.tsx:135-148 | the handler leaves the display as the reducer step says and reports the fragment's outcome |
| `InteractiveAvatar.AvatarView.StreamDisconnected` | components/InteractiveAvatar.tsx:130-133 | the display becomes empty |
| `InteractiveAvatar.AvatarView.Unmount` | components/InteractiveAvatar.tsx:172-175 | the display becomes empty |
| `LegacyInteractiveAvatar.ExtractPropertyId` | a/components/InteractiveAvatar.tsx:53-56 | the token is non-empty and all decimal digits, its tag occurs in the message and is the leftmost all-digit tag; null exactly when there is none |
| `LegacyInteractiveAvatar.FindPropertyById` | a/components/InteractiveAvatar.tsx:59-61 | it throws exactly when a level of the catalog path is missing; otherwise it returns a listing with the id exactly when one exists |
| `LegacyInteractiveAvatar.ClassifyFragment` | a/components/InteractiveAvatar.tsx:73-82 | no tag, a thrown lookup (exactly when a tag exists and the catalog path is missing), a found listing, or a silent miss |
| `LegacyInteractiveAvatar.Step` | a/components/InteractiveAvatar.tsx:63-112 | start leaves the display as it was (63-67); disconnect (96) and unmount (111) give `[]`; a fragment whose digit token finds a listing gives exactly that listing (80); no token, a thrown lookup or a miss keeps the display |
| `LegacyInteractiveAvatar.StartKeepsDisplay` | a/components/InteractiveAvatar.tsx:63-67 | starting a session leaves the display as it was |
| `LegacyInteractiveAvatar.FragmentReplacesDisplay` | a/components/InteractiveAvatar.tsx:73-80 | a fragment whose all-digit tag names a found listing sets the display to exactly that listing |
| `LegacyInteractiveAvatar.FragmentWithoutMatchKeepsDisplay` | a/components/InteractiveAvatar.tsx:73-82 | in every other case, a thrown lookup included, the display is unchanged |
| `LegacyInteractiveAvatar.FragmentIdempotent` | a/components/InteractiveAvatar.tsx:80 | handling a fragment twice equals handling it once |
| `LegacyInteractiveAvatar.StepKeepsDisplayable` | a/components/InteractiveAvatar.tsx:69-112 | after any event the display is empty or one listing of the loaded catalog |
| `LegacyInteractiveAvatar.MixedTagOnlyCurrentSees` | a/components/InteractiveAvatar.tsx:54 | `[ID:A1]` yields nothing in the older revision and `A1` in the current one |
| `LegacyInteractiveAvatar.DigitTagFoundImpliesAlphanumericFound` | a/components/InteractiveAvatar.tsx:54 | when the digits-only extractor finds a tag, the alphanumeric one finds a tag at the same position or earlier |
| `LegacyInteractiveAvatar.AgreeOnDigitTokens` | a/components/InteractiveAvatar.tsx:54 | when the current revision's token is all digits, the older revision extracts the same token |
| `LegacyInteractiveAvatar.LookupsAgree` | a/components/InteractiveAvatar.tsx:60 | the older lookup throws exactly where the current guard returns undefined, and otherwise returns the same result |
| `LegacyInteractiveAvatar.FragmentAgreesOnDigitTags` | a/components/InteractiveAvatar.tsx:69-83 | on a fragment with no tag, or whose leftmost tag is all digits, both revisions leave the same display |
| `LegacyInteractiveAvatar.LegacyAvatarView.constructor` | a/components/InteractiveAvatar.tsx:49 | the view starts with no listings |
| `LegacyInteractiveAvatar.LegacyAvatarView.StartSession` | a/components/InteractiveAvatar.tsx:63-67 | starting writes nothing: the display stays as it was |
| `LegacyInteractiveAvatar.LegacyAvatarView.TalkingMessage` | a/components/InteractiveAvatar.tsx:69-83 | the handler leaves the display as the older reducer step says and reports the outcome, a thrown lookup included |
| `LegacyInteractiveAvatar.LegacyAvatarView.StreamDisconnected` | a/components/InteractiveAvatar.tsx:94-97 | the display becomes empty |
| `LegacyInteractiveAvatar.LegacyAvatarView.Unmount` | a/components/InteractiveAvatar.tsx:109-112 | the display becomes empty |
| `PropertyUtils.KeepMatching` | a/app/immobili/utils.ts:29-41 | the result is a subsequence of the input; every kept listing meets every active filter; every listing that meets them is kept as many times as it occurs |
| `PropertyUtils.FilterProperties` | a/app/immobili/utils.ts:17-42 | `[]` for an empty input; a subsequence of the input in input order; a listing of the input is in the result exactly when it meets every active price bound, zone, type and room minimum |
| `PropertyUtils.NoFilterKeepsAll` | a/app/immobili/utils.ts:29-36 | with every filter falsy (absent, `0`, `""`) the result equals the input |
| `PropertyUtils.KeepAllWhenNoFilter` | a/app/immobili/utils.ts:29-36 | with every filter falsy the filter callback keeps every listing |
| `PropertyUtils.Keep` | a/app/immobili/utils.ts:30-36 | the filter callback keeps a listing exactly when it meets every active price bound, zone, type and room minimum |
| `PropertyUtils.Compare` | a/app/immobili/utils.ts:53-54 | for `asc` the comparison is at most 0 exactly when the first key is at most the second; for `desc`, exactly when it is at least the second; it is 0 exactly when the keys are equal |
| `PropertyUtils.Insert` | a/app/immobili/utils.ts:52 | inserting adds exactly one copy of the element |
| `PropertyUtils.SortBy` | a/app/immobili/utils.ts:52 | the sort of a copy is a permutation of the input |
| `PropertyUtils.SortedCons` | a/app/immobili/utils.ts:53-54 | a head that compares at most equal to every element of a sorted tail gives a sorted sequence |
| `PropertyUtils.InsertSorted` | a/app/immobili/utils.ts:52-55 | inserting into a sorted sequence keeps it sorted under the comparator |
| `PropertyUtils.InsertStable` | a/app/immobili/utils.ts:52-55 | an inserted element goes in front of the elements with its own key |
| `PropertyUtils.SortByCorrect` | a/app/immobili/utils.ts:52-55 | the sort is a permutation of its input and is ordered by the comparator |
| `PropertyUtils.SortProperties` | a/app/immobili/utils.ts:44-60 | `[]` for an empty input; otherwise a permutation of the input, non-decreasing in the key for `asc` and non-increasing for `desc` |
| `PropertyUtils.SortStable` | a/app/immobili/utils.ts:52 | listings with equal keys keep their input order, as a stable `Array.prototype.sort` keeps them |

## Left out

- The token fetch (`fetchAccessToken`, `/api/get-access-token`) and the SDK calls `initAvatar`, `startAvatar`, `startVoiceChat` and `stopAvatar` are left out: they are network calls into a vendor SDK. `AvatarView.StartSession` stops where the token fetch would begin and returns whether it would begin.
- The error messages built from SDK error events and from start failures (components/InteractiveAvatar.tsx:116-128, 159-169), and the error set by a failed token fetch, are left out. They are string-building over vendor objects.
- Video stream attachment and playback (components/InteractiveAvatar.tsx:177-187) are left out as DOM and media work. So is all JSX rendering, including the error banner's dismiss button, the disabled state of the start buttons, `PropertyCard`, `PropertyGrid`, `PropertyWebView`, the layout and the page.
- `formatPrice` and the `it-IT` locale formatting are left out. They are `Intl` formatting of JavaScript numbers.
- Console logging (`console.log`, `console.warn`, `console.error`) is left out. The current revision's warning for a missed lookup appears only as the outcome `NotFound`.
- The catalog file `data/immobili.json` is not part of this model. The catalog is a parameter, and its listing identifiers are not assumed unique.
- Gating by session state (`StreamingAvatarSessionState`) is left out, because the SDK owns it and the handlers do not check it. The classes also accept events after `Unmount`; React discarding state updates on an unmounted component is not modelled.
- No rolling buffer joins fragments, because the code has none: a tag split across two fragments is never matched when the text around the pieces has no `[` (`TagScan.SplitTagNeverMatched`; another `[` nearby could still form some tag of its own). Nothing reports a catalog failure "once" either: the current revision logs on every lookup, and the model has no logging.
- In a/components/InteractiveAvatar.tsx, `fetchAccessToken` (line 65) is called without being declared in that file. Whether a session can start at all in that revision is not part of this model. Its handlers are modelled as if they were registered.
- `PropertyUtils.FilterProperties`: a `null` or `undefined` input (the `?.` at a/app/immobili/utils.ts:27) is not modelled, because the inputs are sequences. The `catch` branch that rejects a listing is not modelled, because the callback cannot throw on a well-formed record.
- `PropertyUtils.SortProperties`: the `catch` branch that returns the input is not modelled, because subtracting two integer keys cannot throw. The engine's sorting algorithm is not modelled either. ECMAScript requires `sort` to be stable, and with this comparator the stable order is unique, so the model computes it by insertion sort. The default `order = 'asc'` is an explicit argument here.
- JavaScript numbers are modelled as unbounded integers: no floating point and no `NaN` filter values. Truthiness of a numeric filter is "present and not 0"; of a text filter, "present and not empty".
- Teardown is not terminal in either revision, and the older revision's start does not empty the display (`LegacyInteractiveAvatar.StartKeepsDisplay`). The model follows the code in both respects.
