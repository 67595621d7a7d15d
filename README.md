# Superwall SDK core: a Dafny model

This project models six pieces of the Superwall iOS SDK, the library that
decides whether an app event shows a paywall and reports what then happens.
Each source file becomes one Dafny module, and the model proves properties
of each.

- **Product substitution** (`StoreKitManager.dfy`, module `Products`):
  - up to three caller-supplied products replace a paywall's primary,
    secondary and tertiary products;
  - the remaining product ids are fetched from the store;
  - every product seen is cached in the manager's `productsById`.

  `StoreKitManager` is a class. Its cache is a `map` field that the methods
  update.
- **Entitlements** (`EntitlementsInfo.dfy`, module `Entitlements`):
  - the user's entitlement status, with its `didSet` normalisation;
  - the entitlements each product unlocks;
  - the derived all, active and inactive sets;
  - the stream of status-change reports that the listener derives from the
    published status (`removeDuplicates`, `dropFirst`, `scan`).

  `EntitlementsInfo` and its `Storage` are classes.
- **Presentation outcomes** (`PublicPresentation.dfy`, module `Presentation`):
  - which handler callbacks and whether the `feature` block run for each
    paywall state (the fail-open / fail-closed policy of `register`);
  - how `publisher` guards reserved event names;
  - the Objective-C conversions of skip reasons (error codes 4001, 4000, 404
    and 4002 in domain `com.superwall`) and of dismissal results;
  - the guards of the `dismiss` entry points.
- **Event and attribute shaping** (`PublicEvents.dfy`, module `Events`):
  - how `track` turns each standard event into the internal tracking call;
  - how standard and custom user attributes become parameters: nil values
    dropped, custom keys starting with `$` dropped;
  - the three `setUserAttributes` entry points, including the key table of
    the `NSDictionary` variant.
- **Log gating** (`Logger.dfy`, module `Logging`):
  - `shouldPrint`, which uses threshold 99 when no level is configured and
    treats `.all` as enabling every scope;
  - what one `debug` call hands to the delegate and to the console dump.
- **Variant decoding** (`Variant.dfy`, module `Variants`): the
  `variantType` tag selects treatment or holdout, and an unknown tag decodes
  as a holdout.

`Wrappers.dfy` holds the `Option` and `Result` types and `Value`, the
parameter and attribute values that the SDK types as `Any`.

Modelling choices:
- Work that the SDK dispatches to queues, tasks or the main thread is
  modelled as running to completion, in program order.
- Collaborators that are not part of this model are parameters of the
  operation that uses them:
  - the store fetch;
  - the install date;
  - the current date's ISO string;
  - the reserved-event check;
  - the outcome of decoding a variant's payload.

## Model

| member | source | states |
|---|---|---|
| `Variants.Decode` | Sources/Paywall/Models/Triggers/Variant.swift:18-33 | A missing `variantType` is a key-not-found error, a null one a value-not-found error, and any other non-string a type mismatch. A string tag is never rejected. "TREATMENT" succeeds exactly when the treatment payload decodes, and otherwise fails with the payload's error. Every other tag does the same with the holdout payload. Only the exact tag "TREATMENT" yields a treatment. |
| `Variants.DecodeTagged` | Sources/Paywall/Models/Triggers/Variant.swift:18-33 | Round trip: a container tagged with a variant's own tag, whose payload decodes to that variant's payload, decodes back to the variant. |
| `Variants.UnknownTagIsHoldout` | Sources/Paywall/Models/Triggers/Variant.swift:21-32 | Any string tag other than "TREATMENT" (including "HOLDOUT") decodes as a holdout. |
| `Variants.Stub` | Sources/Paywall/Models/Triggers/Variant.swift:36-41 | The fixture is a holdout with variant id "7". |
| `Logging.ShouldPrint` | Sources/SuperwallKit/Logger/Logger.swift:11-21 | A line prints only if its level's raw value reaches the configured level (99 when none is set), and only if its scope or `.all` is enabled. |
| `Logging.NoLevelMeansNinetyNine` | Sources/SuperwallKit/Logger/Logger.swift:15 | With no configured level and an enabled scope, a line prints iff its level's raw value is at least 99. |
| `Logging.ShouldPrintMonotone` | Sources/SuperwallKit/Logger/Logger.swift:11-21 | If a level prints in a scope, every higher level prints there too. |
| `Logging.AllScopeOnlyLevelMatters` | Sources/SuperwallKit/Logger/Logger.swift:15-20 | With `.all` enabled, printing depends on the level threshold alone. |
| `Logging.DisabledScopeNeverPrints` | Sources/SuperwallKit/Logger/Logger.swift:16-20 | A scope that is neither enabled nor covered by `.all` never prints. |
| `Logging.FormatTimestamp` | Sources/SuperwallKit/Logger/Logger.swift:59-61 | The result has no 'T' and no 'Z'. Every 'T' becomes a space and every 'Z' is removed. Every other character is kept, so the length drops by the number of 'Z's. |
| `Logging.ReplaceChar` | Sources/SuperwallKit/Logger/Logger.swift:60 | One-character `replacingOccurrences`: the length is kept. Each position holds the replacement where the input had the replaced character, and the input's character elsewhere. |
| `Logging.RemoveChar` | Sources/SuperwallKit/Logger/Logger.swift:61 | Replacing a character by the empty string: it no longer occurs, the length drops by its number of occurrences, and every other character keeps its number of occurrences. |
| `Logging.RemoveCharChar` | Sources/SuperwallKit/Logger/Logger.swift:61 | On one character: the removed character disappears and any other stays. With `RemoveCharAppend` this fixes the result on every string: the other characters, in order. |
| `Logging.RemoveCharAppend` | Sources/SuperwallKit/Logger/Logger.swift:61 | Removing a character distributes over concatenation. |
| `Logging.FormatTimestampIsReplaceThenRemove` | Sources/SuperwallKit/Logger/Logger.swift:59-61 | The timestamp rewrite equals the two `replacingOccurrences` calls in source order: every "T" replaced by a space, then every "Z" removed. |
| `Logging.FormatTimestampAppend` | Sources/SuperwallKit/Logger/Logger.swift:59-61 | The rewrite distributes over concatenation: it acts character by character. |
| `Logging.FormatTimestampChar` | Sources/SuperwallKit/Logger/Logger.swift:59-61 | On one character: "T" becomes a space, "Z" disappears, and any other character stays. With `FormatTimestampAppend` this fixes the result on every string. |
| `Logging.Debug` | Sources/SuperwallKit/Logger/Logger.swift:23-71 | The delegate's `handleLog` always receives the call. The dump happens iff `shouldPrint` holds. The dump payload has an "info" key iff info is given and an "error" key iff an error is given. The dump name has the fixed header layout. The output lines are the message, the info description and the error description, in that order. |
| `Products.SetGuarded` | Sources/Superwall/Products/StoreKitManager.swift:103 | A guarded write changes only the given position, and only when that position exists. |
| `Products.RemoveSafe` | Sources/Superwall/Products/StoreKitManager.swift:104 | A safe removal drops exactly the given position when it exists and is a no-op otherwise. |
| `Products.Processed` | Sources/Superwall/Products/StoreKitManager.swift:94-127 | Processing the three slots in order keeps the product list's length. What lands where is stated by `SlotsOverwritten`, `SubstituteMapKeys` and `IdsToLoadExact`. |
| `Products.NoSubstitutes` | Sources/Superwall/Products/StoreKitManager.swift:85-134 | With no substitutes, every response id is loaded, the substitute map is empty and the product list is unchanged. |
| `Products.SlotsOverwritten` | Sources/Superwall/Products/StoreKitManager.swift:94-127 | The product list keeps its length. Positions 0, 1 and 2 hold the supplied primary, secondary and tertiary substitutes. Every other position keeps the response's product. |
| `Products.SubstituteMapKeys` | Sources/Superwall/Products/StoreKitManager.swift:94-127 | The substitute map's keys are exactly the supplied substitutes' ids. Each key is bound to a supplied product with that id. |
| `Products.IdsToLoadFromResponse` | Sources/Superwall/Products/StoreKitManager.swift:129-133 | The ids still to load are a subset of the response's ids. |
| `Products.IdsToLoadExact` | Sources/Superwall/Products/StoreKitManager.swift:94-133 | For every combination of substitutes, the ids still to load are exactly the ids at original positions that were not removed. The primary removes position 0. The secondary removes position 1, or 2 after a primary. The tertiary removes position 2 plus one for each earlier substitute (`RemovedPositions`). |
| `Products.AllThreeRemoveEvenPositions` | Sources/Superwall/Products/StoreKitManager.swift:104-126 | With all three substitutes, removal at indices 0, 1 and 2 of a list that shrinks after each removal takes away original ids 0, 2 and 4. Ids 1, 3 and those from 5 on are still loaded. |
| `Products.AllThreeOverThreeIds` | Sources/Superwall/Products/StoreKitManager.swift:104-126 | Worked example: all three substitutes over ids [a, b, c] leave b to load. |
| `Products.Overlay` | Sources/Superwall/Products/StoreKitManager.swift:75-78 | Writing fetched products into a map adds exactly their ids to its keys. |
| `Products.OverlayWins` | Sources/Superwall/Products/StoreKitManager.swift:73-78 | A fetched product wins on its own id. An id that was not fetched keeps the substitute's entry. |
| `Products.OverlayOnUnion` | Sources/Superwall/Products/StoreKitManager.swift:75-78 | Writing fetches into the result map and into the cache agree: cache + (substitutes overlaid by fetches) equals (cache + substitutes) overlaid by fetches. |
| `Products.VariablesFor` | Sources/Superwall/Products/StoreKitManager.swift:34-42 | There are never more variables than response products, and every variable's value is a fetched product. |
| `Products.CollectVariables` | Sources/Superwall/Products/StoreKitManager.swift:34-42 | The loop of `getVariables` yields `VariablesFor` of the response products and the fetched map. |
| `Products.VariablesInResponseOrder` | Sources/Superwall/Products/StoreKitManager.swift:34-42 | Variables are made for exactly the response products whose id was fetched, in response order, each keyed by its product type. |
| `Products.StoreKitManager.constructor` | Sources/Superwall/Products/StoreKitManager.swift:6 | The cache starts empty. |
| `Products.StoreKitManager.StoreAndSubstitute` | Sources/Superwall/Products/StoreKitManager.swift:94-105 | One substitution step on the locals, plus the product written into the cache. |
| `Products.StoreKitManager.RemoveAndStore` | Sources/Superwall/Products/StoreKitManager.swift:85-134 | The result is the three slots applied in order. The cache gains exactly the substitute map. |
| `Products.StoreKitManager.GetProducts` | Sources/Superwall/Products/StoreKitManager.swift:61-81 | A failed fetch is rethrown, and the cache keeps only the substitutes written. Otherwise the result is the substitutes overlaid by the fetched products, paired with the substituted product list, and the cache gains the same entries. |
| `Products.StoreKitManager.GetVariables` | Sources/Superwall/Products/StoreKitManager.swift:28-45 | A failed fetch gives no variables and leaves the cache alone. Otherwise there is one variable per fetched response product, in order, and the fetched products enter the cache. There are never more variables than response products. |
| `Products.StoreKitManager.LoadPurchasedProducts` | Sources/Superwall/Products/StoreKitManager.swift:47-59 | Every fetched purchased product enters the cache under its id. A failed fetch changes nothing. |
| `Entitlements.UnionOfValues` | Sources/SuperwallKit/StoreKit/Products/EntitlementsInfo.swift:80 | `all` contains every product's entitlements and nothing else. |
| `Entitlements.StatusAssigned` | Sources/SuperwallKit/StoreKit/Products/EntitlementsInfo.swift:53-73 | As written: the status never ends up as an empty `active`. Any other status keeps its value and sets the active set. An empty `active` becomes `inactive` and leaves the active set unchanged. |
| `Entitlements.Emitted` | Sources/SuperwallKit/StoreKit/Products/EntitlementsInfo.swift:53-59 | The publisher emits the assigned value first and ends with the normalised status. |
| `Entitlements.AsWrittenLeavesStaleActive` | Sources/SuperwallKit/StoreKit/Products/EntitlementsInfo.swift:53-73 | Counterexample: assigning `active({e})` and then `active({})` gives status `inactive` while the active set is still {e}. |
| `Entitlements.StatusAssignedIntended` | Sources/SuperwallKit/StoreKit/Products/EntitlementsInfo.swift:53-73 | Corrected transition: the status is normalised as before. |
| `Entitlements.IntendedKeepsConsistent` | Sources/SuperwallKit/StoreKit/Products/EntitlementsInfo.swift:53-73 | The corrected transition always leaves the active set equal to the status's entitlements. It yields the same status as the written one, and agrees with it completely except on an empty `active`. |
| `Entitlements.RemoveDuplicates` | Sources/SuperwallKit/StoreKit/Products/EntitlementsInfo.swift:177 | No two adjacent values are equal. The first and last values are kept, and no value is invented. |
| `Entitlements.RemoveDuplicatesCount` | Sources/SuperwallKit/StoreKit/Products/EntitlementsInfo.swift:177 | A non-empty stream keeps its first value plus one value per change. |
| `Entitlements.Pairs` | Sources/SuperwallKit/StoreKit/Products/EntitlementsInfo.swift:178-182 | The scan pairs each value with its predecessor. |
| `Entitlements.ChangeReportsChain` | Sources/SuperwallKit/StoreKit/Products/EntitlementsInfo.swift:175-202 | There is exactly one report per place where the stream changes value. Every report is a real change. Reports chain: each starts where the last ended. The first starts at the status at subscription and the last ends at the last published value. |
| `Entitlements.ConstantStreamNoReports` | Sources/SuperwallKit/StoreKit/Products/EntitlementsInfo.swift:176-178 | A stream that never changes value produces no report. |
| `Entitlements.ChangeReportsOnNewValue` | Sources/SuperwallKit/StoreKit/Products/EntitlementsInfo.swift:176-182 | Publishing a value that differs from the last one adds exactly one report, from the last value to the new one. |
| `Entitlements.ChangeReportsOnSameValue` | Sources/SuperwallKit/StoreKit/Products/EntitlementsInfo.swift:176-182 | Publishing the same value as the last one adds no report. |
| `Entitlements.EntitlementsInfo.constructor` | Sources/SuperwallKit/StoreKit/Products/EntitlementsInfo.swift:95-128 | With `isTesting`, everything is empty and `unknown`. Otherwise the stored status and map are restored, the map is saved back, `all` is derived from the map, and the active set from the stored status. |
| `Entitlements.EntitlementsInfo.All` | Sources/SuperwallKit/StoreKit/Products/EntitlementsInfo.swift:18-29 | `all` holds exactly the entitlements some product unlocks. |
| `Entitlements.EntitlementsInfo.ActiveEntitlements` | Sources/SuperwallKit/StoreKit/Products/EntitlementsInfo.swift:31-43 | Under the invariant that assignments keep (`ActiveTracksStatus`), `active` is an `active` status's entitlements and empty for `unknown`. For `inactive` it may be stale (see Findings). |
| `Entitlements.StatusAssignedTracksStatus` | Sources/SuperwallKit/StoreKit/Products/EntitlementsInfo.swift:53-73 | Whatever the active set before, an assignment leaves it equal to the status's entitlements unless the resulting status is `inactive`. |
| `Entitlements.EntitlementsInfo.InactiveEntitlements` | Sources/SuperwallKit/StoreKit/Products/EntitlementsInfo.swift:32-36 | `inactive` holds exactly the entitlements of `all` that are not active. |
| `Entitlements.EntitlementsInfo.ByProductId` | Sources/SuperwallKit/StoreKit/Products/EntitlementsInfo.swift:136-140 | An unknown product id gives the empty set. A known one gives its entitlements, which are always within `all`. |
| `Entitlements.EntitlementsInfo.SetStatus` | Sources/SuperwallKit/StoreKit/Products/EntitlementsInfo.swift:53-73 | Assigning `status` runs `didSet` as written (`StatusAssigned`) and emits `Emitted(s)`. `all` stays consistent, and the active set tracks every status but `inactive` (`ActiveTracksStatus`). |
| `Entitlements.EntitlementsInfo.SetUnknownStatus` | Sources/SuperwallKit/StoreKit/Products/EntitlementsInfo.swift:156-158 | Status `unknown`, no active entitlements. |
| `Entitlements.EntitlementsInfo.SetInactiveStatus` | Sources/SuperwallKit/StoreKit/Products/EntitlementsInfo.swift:162-164 | Status `inactive`, no active entitlements. |
| `Entitlements.EntitlementsInfo.SetActiveStatus` | Sources/SuperwallKit/StoreKit/Products/EntitlementsInfo.swift:169-171 | A non-empty set becomes the status and the active set. An empty set reads back as `inactive` and leaves the active set as it was. |
| `Entitlements.EntitlementsInfo.SetEntitlementsByProductId` | Sources/SuperwallKit/StoreKit/Products/EntitlementsInfo.swift:77-82 | The new map is saved to storage, and `all` becomes the union of its values. |
| `Entitlements.EntitlementsInfo.ListenToEntitlementStatus` | Sources/SuperwallKit/StoreKit/Products/EntitlementsInfo.swift:175-202 | The reports are `ChangeReports` of the emitted stream. Storage ends holding the last reported status, or keeps its old value when nothing was reported. |
| `Presentation.RegisterCallbacks` | Sources/SuperwallKit/Paywall/Presentation/PublicPresentation.swift:449-501 | Each state first runs its own handler block when that block is set: `onPresent` with the paywall info, `onDismiss` with the paywall info, `onSkip` with the reason, `onError` with the error. Purchase, restore and skip then unlock the feature. A plain close unlocks it only for a non-gated paywall not closed for the next paywall. Presentation and an error never unlock it. Nothing else runs, and the feature runs at most once, last. |
| `Presentation.FeaturePolicy` | Sources/SuperwallKit/Paywall/Presentation/PublicPresentation.swift:464-497 | With a `feature` block, it runs iff the user purchased or restored, the paywall was skipped, or a non-gated paywall was closed for a reason other than the next paywall. |
| `Presentation.NoFeatureNoUnlock` | Sources/SuperwallKit/Paywall/Presentation/PublicPresentation.swift:441-447 | Without a `feature` block nothing is unlocked in any state. |
| `Presentation.GatedCloseStaysLocked` | Sources/SuperwallKit/Paywall/Presentation/PublicPresentation.swift:479-486 | Closing a gated paywall never unlocks the feature. |
| `Presentation.Publisher` | Sources/SuperwallKit/Paywall/Presentation/PublicPresentation.swift:517-549 | A reserved event name yields exactly one presentation error and nothing is tracked. Otherwise the event is tracked under its own name: never implicitly triggering, with missing params as an empty map, and with the given gatability and overrides. |
| `Presentation.Register` | Sources/SuperwallKit/Paywall/Presentation/PublicPresentation.swift:420-460 | `register` is feature-gatable exactly when a `feature` block is given, and passes no overrides. |
| `Presentation.Track` | Sources/SuperwallKit/Paywall/Presentation/PublicPresentation.swift:387-405 | The Swift `track` is never feature-gatable and forwards its overrides. |
| `Presentation.SkipError` | Sources/SuperwallKit/Paywall/Presentation/PublicPresentation.swift:171-232 | Every skip error is in domain "com.superwall". A holdout becomes Objective-C `holdout` with code 4001, no rule match `noRuleMatch` with 4000, event not found `eventNotFound` with 404, and user is subscribed `userIsSubscribed` with 4002. A holdout's userInfo carries exactly experimentId, variantId and groupId, taken from the experiment. The other reasons carry an empty userInfo. |
| `Presentation.SkipCodesIdentifyReason` | Sources/SuperwallKit/Paywall/Presentation/PublicPresentation.swift:184-231 | The codes are 4001, 4000, 404 and 4002, and each code identifies its Objective-C reason. |
| `Presentation.OnSkipConverter` | Sources/SuperwallKit/Paywall/Presentation/PublicPresentation.swift:165-239 | No completion block means no call. Otherwise there is one call for the reason and one for the error, in that order. The reason's call comes first and carries `SkipError` of the reason. The error's call comes last and passes the error through unchanged as `.error`. |
| `Presentation.OnDismissConverter` | Sources/SuperwallKit/Paywall/Presentation/PublicPresentation.swift:557-570 | A product id is reported iff the result is a purchase, and it is the purchased id. |
| `Presentation.DismissConverterRoundTrip` | Sources/SuperwallKit/Paywall/Presentation/PublicPresentation.swift:557-570 | The Objective-C pair reads back as the original result. |
| `Presentation.ObjcTrackCallbacks` | Sources/SuperwallKit/Paywall/Presentation/PublicPresentation.swift:141-162 | Each state produces at most one Objective-C callback. Skips and presentation errors both reach `onSkip`, an error as `.error`. A missing block produces nothing. |
| `Presentation.ObjcTrack` | Sources/SuperwallKit/Paywall/Presentation/PublicPresentation.swift:125-145 | The Objective-C track builds overrides from its arguments and is never feature-gatable. |
| `Presentation.Dismiss` | Sources/SuperwallKit/Paywall/Presentation/PublicPresentation.swift:37-49 | With no presented paywall nothing happens. Otherwise the paywall is closed with result `closed`. The state-publisher flag and the close reason are left at the internal helper's defaults, so the reason is never given as `forNextPaywall`. |
| `Presentation.DismissForNextPaywall` | Sources/SuperwallKit/Paywall/Presentation/PublicPresentation.swift:52-67 | With no presented paywall nothing happens. Otherwise the paywall is closed with reason `forNextPaywall`, and the state publisher is kept open. |
| `Presentation.DismissWithCompletion` | Sources/SuperwallKit/Paywall/Presentation/PublicPresentation.swift:19-24 | The completion runs whenever one is given, after the same dismissal as `dismiss()`. |
| `Presentation.DismissForNextPaywallKeepsFeatureLocked` | Sources/SuperwallKit/Paywall/Presentation/PublicPresentation.swift:52-67 | A paywall dismissed for the next one never unlocks a `register` feature. |
| `Events.KeyForRawValue` | Sources/Paywall/Paywall/Events/PublicEvents.swift:42-54 | A raw string names a standard attribute key iff it is one of the eleven raw values, and then it is that key's raw value. |
| `Events.StandardParamsMeaning` | Sources/Paywall/Paywall/Events/PublicEvents.swift:159-165 | Each non-nil standard attribute appears under its raw key with its value. Every parameter comes from such an attribute. |
| `Events.StandardParamsAt` | Sources/Paywall/Paywall/Events/PublicEvents.swift:159-165 | A string is a standard parameter iff it is the raw value of a standard key whose attribute is non-nil, and then it holds that attribute's value. |
| `Events.CustomParams` | Sources/Paywall/Paywall/Events/PublicEvents.swift:167-175 | The custom parameters are exactly the non-nil custom attributes whose key does not start with `$`, with their values. |
| `Events.ShapeStandardAttributes` | Sources/Paywall/Paywall/Events/PublicEvents.swift:160-165 | The loop over the standard keys yields the standard parameters. |
| `Events.ShapeCustomAttributes` | Sources/Paywall/Paywall/Events/PublicEvents.swift:167-175 | The loop over the custom keys yields the custom parameters. |
| `Events.Track` | Sources/Paywall/Paywall/Events/PublicEvents.swift:121-187 | A deep link carries its url. A push event carries `push_notification_id` iff it has an id. Only these three events forward the caller's params. User attributes are shaped as above. `base` tracks under its own name with empty standard params. Every other event tracks bare. |
| `Events.UserAttributesShape` | Sources/Paywall/Paywall/Events/PublicEvents.swift:159-181 | A tracked custom key never starts with `$`, and every standard key is a raw value. |
| `Events.LastWriteWins` | Sources/Paywall/Paywall/Events/PublicEvents.swift:336-361 | After a run of key assignments, a key holds its last written value, or its initial value when it was never written. |
| `Events.AliasKey` | Sources/Paywall/Paywall/Events/PublicEvents.swift:285-308 | A dictionary key is recognised iff it is one of the table's nineteen strings. No key reaches `lastName` or the install date. |
| `Events.AliasKeyIntended` | Sources/Paywall/Paywall/Events/PublicEvents.swift:285-308 | The corrected table recognises the same nineteen strings. It reaches `lastName` exactly from "lastName" and "last_name", and never reaches the install date. |
| `Events.AliasTableAsWritten` | Sources/Paywall/Paywall/Events/PublicEvents.swift:285-308 | "lastName" and "last_name" go to `firstName`, as do "firstName" and "first_name". "id" and "ID" go to `id`. Every standard key other than `lastName` and the install date is reached from its own raw value. |
| `Events.AliasTableIntended` | Sources/Paywall/Paywall/Events/PublicEvents.swift:285-308 | The corrected table reaches every standard key except the install date from its own raw value, `lastName` included. |
| `Events.AliasWritesKeys` | Sources/Paywall/Paywall/Events/PublicEvents.swift:283-310 | The dictionary setter never writes `lastName` or the install date. |
| `Events.AsStringMapKeys` | Sources/Paywall/Paywall/Events/PublicEvents.swift:311-315 | The `[String: Any]` cast succeeds iff every key is a string, and then keeps exactly the dictionary's keys. |
| `Events.AliasedAttributes` | Sources/Paywall/Paywall/Events/PublicEvents.swift:283-310 | The loop builds the install date followed by the table's writes, in iteration order. |
| `Events.SetUserAttributesDictionary` | Sources/Paywall/Paywall/Events/PublicEvents.swift:280-316 | The standard map is the install date followed by the table's writes in iteration order. Custom attributes are the whole dictionary when all keys are strings, and empty otherwise. Both are tracked as user attributes. |
| `Events.DictionarySetterStandardKeys` | Sources/Paywall/Paywall/Events/PublicEvents.swift:280-310 | The dictionary setter always reports the install date and never a last name. |
| `Events.LastNameOverwritesFirstName` | Sources/Paywall/Paywall/Events/PublicEvents.swift:286-291 | Counterexample: a dictionary iterated as first_name: f, then last_name: l, reports first name l and no last name. In the other iteration order the first name is f, and there is still no last name (`DictionarySetterStandardKeys`). |
| `Events.IntendedKeepsBothNames` | Sources/Paywall/Paywall/Events/PublicEvents.swift:286-291 | With the corrected table, the same dictionary in the same order keeps f as first name and l as last name. |
| `Events.SetUserAttributes` | Sources/Paywall/Paywall/Events/PublicEvents.swift:259-263 | The only standard parameter is the install date. The custom attributes are shaped as in `track`. |
| `Events.AttributeWrite` | Sources/Paywall/Paywall/Events/PublicEvents.swift:338-360 | No standard attribute writes the install date. |
| `Events.AttributeWrites` | Sources/Paywall/Paywall/Events/PublicEvents.swift:336-361 | One write per standard attribute, in argument order, each to the attribute's own key. |
| `Events.SetUserAttributesVariadic` | Sources/Paywall/Paywall/Events/PublicEvents.swift:332-363 | The standard map is the install date followed by each attribute's write, in argument order. |
| `Events.VariadicLastWins` | Sources/Paywall/Paywall/Events/PublicEvents.swift:336-361 | An attribute not followed by another of the same key is the reported value. The install date is always reported. |
| `Events.TrackName` | Sources/Paywall/Paywall/Events/PublicEvents.swift:204-209 | The Objective-C `track(_:_:)` tracks under the caller's name, with all params custom. |
| `Events.TrackDictionary` | Sources/Paywall/Paywall/Events/PublicEvents.swift:222-237 | Something is tracked iff params are given and every key is a string, and then as a `base` event with those params. |

## Left out

- Concurrency is not modelled: dispatch queues, `Task`, `async`/`await`, `DispatchQueue.main` and weak-self captures are modelled as sequential code that runs to completion with `self` alive.
- StoreKit, `InAppReceipt`, `productsManager`, `configManager`, `Superwall.shared` and `DeviceHelper` are not part of this model. The store fetch and the purchased-products fetch are parameters, and the install date is a parameter.
- `products[guarded:]` and `remove(safeAt:)` are not part of this model. They are assumed to act only on positions that exist (`Products.SetGuarded`, `Products.RemoveSafe`).
- `Products.GetVariables`: a variable's value is the store product itself, not the `JSON(legacyEventData)` wrapping. The key is the product type, not its raw value.
- `TrackingLogic.checkNotSuperwallEvent`, `EventTypeConversion.name(for:)`, `makePresentationRequest` and `internallyPresent` are not part of this model. `Presentation.Publisher` stops at the plan to track and then present.
- The texts of `NSLocalizedString` in the skip errors are left out of `userInfo`.
- `Logging.Debug`: `Date()` is a parameter. `dump`'s indentation and depth limits are left out. The raw value of `.all`, which `LogScope` defines outside this model, is taken to be "all".
- The `LogLevel` cases and their raw values are defined outside this model. A level is its raw value and description.
- `Presentation.Dismiss`: the defaults of the internal `dismiss(_:result:shouldCompleteStatePublisher:closeReason:)` are not part of this model. An argument left at its default is recorded as absent.
- The internal tracking call `track(eventName:params:customParams:)`, `SWDebugManager`'s deep-link hand-off, and the debug log of `track(name:params:)` when its dictionary does not cast are not modelled.
- `Entitlements.EntitlementsInfo.SetStatus`: the model assumes `@Published` emits every assignment, including the nested `status = .inactive` inside `didSet`.
- `Entitlements.EntitlementsInfo.constructor`: the model assumes that assigning `status` directly in the initializer runs no observer, and that the assignment to `entitlementsByProductId` inside the `queue.sync` closure runs its `didSet`.
- `Entitlements.EntitlementsInfo.ListenToEntitlementStatus` stops at the values saved to storage and the list of reports. The delegate call and the tracked `EntitlementStatusDidChange` event are these reports.
- `getStatus()` and `toObjc()` are not modelled: they convert the status to Objective-C, and that conversion is defined outside this model.
- `Events.SetUserAttributesDictionary`: an `NSDictionary` is its entries in iteration order. Values are a small sum type (string, int, bool, date) rather than `Any`.
- `Events.IsReserved` compares the key's first character with "$". Swift's `starts(with:)` compares grapheme clusters, so a "$" followed by a combining mark is not reserved in Swift but is in the model. Keys are also compared as plain character sequences, not by Unicode canonical equivalence as Swift `String` keys are.
- `Events.StandardParams`, `Entitlements.ChangeReports` and `Products.Substitute` carry no contract of their own. Their properties are the lemmas in the table above (`StandardParamsMeaning`, `StandardParamsAt`; `ChangeReportsChain`, `ChangeReportsOnNewValue`, `ChangeReportsOnSameValue`; `SlotsOverwritten`, `SubstituteMapKeys`).
- `Entitlements.EntitlementsInfo.published` is a ghost record of the emitted values. It exists only for the proofs.

## Findings

| source | as written | input that shows it | evidently intended | confidence | as-written member | corrected member |
|---|---|---|---|---|---|---|
| Sources/SuperwallKit/StoreKit/Products/EntitlementsInfo.swift:53-73 | `didSet` turns an empty `active` status into `inactive` and returns before updating the active set | `setActiveStatus({e})` then `setActiveStatus({})`: status is `inactive` but `active` is still {e} | the active set follows the normalised status, so it becomes empty | not executed | `Entitlements.AsWrittenLeavesStaleActive` | `Entitlements.IntendedKeepsConsistent` |
| Sources/Paywall/Paywall/Events/PublicEvents.swift:290-291 | "lastName" / "last_name" are stored under `.firstName` | `setUserAttributesDictionary(["first_name": f, "last_name": l])`, iterated in that order, reports first name l; in any order it reports no last name | these keys are stored under `.lastName` | not executed | `Events.LastNameOverwritesFirstName` | `Events.IntendedKeepsBothNames` |

Both setters (`Entitlements.EntitlementsInfo.SetStatus` and
`Events.SetUserAttributesDictionary`) model the behaviour as written.
The corrected definitions are `Entitlements.StatusAssignedIntended` and
`Events.AliasKeyIntended`, and the properties above are proved for both.
