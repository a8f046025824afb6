# SrgSsr middleware: resource resolution, modelled in Dafny

This project models the core of the SrgSsr middleware of pillarbox-web.
The middleware turns a URN into a playable source for the player. It fetches
the media's delivery resources, drops incompatible ones, adds DRM key-system
configuration and Akamai tokens, selects one resource and composes the source
descriptor. A blocked item or a failed request is reported as a player error.

The implementation module (`src/middleware/srgssr.js`) is not part of this
model. Its behaviour is taken from its Jest suite,
`test/middleware/srgssr.spec.js`, and the model follows what that suite
asserts. Where the suite is silent, the model makes a choice of its own, and
each such choice is listed below with its reason.

Modules, one per component, leaf first:

- `Wrappers` (`wrappers.dfy`): `Option` (JavaScript `undefined`) and `Result`.
- `Resources` (`resources.dfy`): resources, DRM entries, key-system values. Protocols, token types and DRM types are closed enumerations, each with an "other" arm.
- `ResourceFilter` (`resource_filter.dfy`): `filterIncompatibleResources`.
- `KeySystems` (`key_systems.dfy`): `composeKeySystemsResources`.
- `AkamaiTokens` (`akamai_tokens.dfy`): `composeAkamaiResources`. The token service is the function parameter `tokenize`. It gives a signed URL, or `None` for a rejected exchange.
- `ResourceSelector` (`resource_selector.dfy`): `getMediaData`. `Pillarbox.browser.IS_ANY_SAFARI` is the boolean parameter `isAnySafari`. The selection rules are proved equal to an independent definition: the first resource of lowest `Rank`.
- `SourceComposer` (`source_composer.dfy`): `composeSrcMediaData`.
- `Middleware` (`middleware.dfy`): `error`, `blockingReason`, `dataProviderError` and `middleware(player).setSource`. These are methods of a `Player` class. The class keeps one ordered log of what the suite observes: the middleware steps, in the order a spy on each would see them, the arguments of `player.error`, and the `player.localize` calls. The pure function `Resolve` describes a whole `setSource` call: how it ends (`next(error, source)` or undefined) and the events it logs. `SetSource` is proved to do exactly that. The metadata service is the function parameter `fetch`.
- `MiddlewareProperties` (`middleware_properties.dfy`): what `Resolve` guarantees, on every input.

Decisions where the suite does not decide:

- Only tokenType `AKAMAI` needs a token. `NONE`, any other value and an absent token type get no exchange and no priority in selection.
- Whether any resource "has a `drmList`" follows JavaScript truthiness. An empty `drmList` counts as present and gives `{}`.
- PLAYREADY maps to the standard `com.microsoft.playready` key-system identifier, the one EME players use. The suite does not exercise it. Unknown DRM types are ignored, as they have no key system to file them under. When the same scheme appears twice, the later entry wins.
- Token exchanges run in list order. The first rejected resource rejects the whole list.
- The `catch` of `setSource` hands every failure to `dataProviderError`. A rejected request that names a URL is reported, and the call returns undefined. Every other failure goes to `next(error)`: a missing source object, a rejected token exchange, or an empty candidate list. The suite shows this only for the missing source (lines 577-579).
- With no resource to select, the call fails before composing a descriptor.
- A block reason or URL that is absent or empty counts as absent (JavaScript truthiness).
- Token-bearing resources come first in selection on every browser, because the suite's test for this rule (lines 292-304) sets no browser. On Safari without any HLS resource, DASH is still preferred over the first resource, as it is off Safari.
- The descriptor is composed before the blocking check. A blocked run therefore logs the `composeSrcMediaData` call, and the error's `src` is the composed descriptor rather than the request's source object. The suite allows either order: it asks only that `blockingReason` gets some object as `src` (lines 619-623). Composing first gives `blockingReason` the descriptor of the resource that is blocked.
- Every protocol but HDS and RTMP is compatible, including protocols the model does not name (`OtherStreaming`). The suite rules out only HDS and RTMP (lines 376-386). A protocol the player does not know is left to the player to reject, not dropped here.
- `error` and `dataProviderError` never call `player.localize`. The suite does not watch `localize` in their tests (lines 232-255, 346-360). Only `blockingReason` localizes, because only its test expects a localized message (lines 55-77).
- `dataProviderError` reports every rejection that names a URL. It does not compare that URL with the data provider's `baseUrl`. The two tests that expect a report mock `SrgSsr.dataProvider` to return a `baseUrl` equal to the URL (lines 242-244, 627-631), and the one test that expects none passes no URL at all (lines 233-238). The suite therefore never shows a URL that differs from `baseUrl`, and the URL alone decides.
- The decorations run in the order srgAnalytics, updatePoster, updateTitleBar, and `ResolvedSelection` fixes that order in the log. The suite checks only that each of them is called (lines 509-511). Some order has to be fixed for the log to be a sequence.

## Model

| member | source | states |
|---|---|---|
| `ResourceFilter.Compatible` | test/middleware/srgssr.spec.js:368-391 | never longer than its input; holds exactly the input's resources that are neither HDS nor RTMP |
| `ResourceFilter.FilterIncompatibleResources` | test/middleware/srgssr.spec.js:368-391 | an absent or empty list gives `[]`; otherwise exactly the compatible resources, never more than were given |
| `ResourceFilter.OnlyIncompatibleFiltersToEmpty` | test/middleware/srgssr.spec.js:376-386 | a list made only of HDS and RTMP resources filters to the empty list |
| `ResourceFilter.CompatibleAppend` | test/middleware/srgssr.spec.js:368-391 | filtering distributes over concatenation, so surviving resources keep their order |
| `ResourceFilter.CompatibleKeepsCompatibleList` | test/middleware/srgssr.spec.js:368-391 | a list with nothing incompatible comes back unchanged |
| `ResourceFilter.FilterIdempotent` | test/middleware/srgssr.spec.js:368-391 | filtering an already filtered list changes nothing |
| `KeySystems.KeySystemsOf` | test/middleware/srgssr.spec.js:142-202 | the keys of a `drmList`'s record are exactly the identifiers of the known schemes in it |
| `KeySystems.KeySystemsOfLastWins` | test/middleware/srgssr.spec.js:142-202 | each key system holds the mapping of the last entry filed under it |
| `KeySystems.WidevineMapsToLicenseUrl` | test/middleware/srgssr.spec.js:166-171 | a WIDEVINE entry with license U gives `'com.widevine.alpha' ↦ U` |
| `KeySystems.FairPlayMapsToUris` | test/middleware/srgssr.spec.js:176-191 | a FAIRPLAY entry with license L and certificate C gives `'com.apple.fps.1_0' ↦ {certificateUri: C, licenseUri: L}` |
| `KeySystems.ComposeKeySystemsResources` | test/middleware/srgssr.spec.js:121-202 | length kept and only `keySystems` may change; with no `drmList` anywhere the list comes back as given; otherwise every resource gets the record of its own `drmList` |
| `KeySystems.ComposeKeySystemsOfNothing` | test/middleware/srgssr.spec.js:122-125 | absent and empty lists give `[]` |
| `KeySystems.EveryResourceGetsKeySystems` | test/middleware/srgssr.spec.js:142-202 | once one resource has a `drmList`, every resource has `keySystems`; one without a `drmList`, or with an empty one, has `{}` |
| `KeySystems.SuiteKeySystemsExample` | test/middleware/srgssr.spec.js:142-202 | the suite's four-resource list maps to exactly the records it expects |
| `AkamaiTokens.TokenizeAll` | test/middleware/srgssr.spec.js:104-113 | succeeds iff every token-bearing resource gets a signed URL, then keeps length and changes only the URLs of token-bearing resources; a rejection names a token-bearing resource whose exchange failed |
| `AkamaiTokens.ComposeAkamaiResources` | test/middleware/srgssr.spec.js:85-88 | absent and empty lists resolve to `[]` |
| `AkamaiTokens.OnlyTokenBearingAreTokenized` | test/middleware/srgssr.spec.js:90-102 | two token services that agree on the token-bearing resources give the same result, so no other resource is ever sent for tokenization |
| `AkamaiTokens.NoTokenNoExchange` | test/middleware/srgssr.spec.js:90-102 | a list with no token-bearing resource comes back unchanged, whatever the token service does |
| `AkamaiTokens.TokenizedKeepsLength` | test/middleware/srgssr.spec.js:104-113 | when every exchange succeeds, the output has as many resources as the input |
| `ResourceSelector.FirstMatching` | test/middleware/srgssr.spec.js:292-332 | the index found is the first resource meeting the rule; none found means no resource meets it |
| `ResourceSelector.SelectedIndex` | test/middleware/srgssr.spec.js:291-337 | an index exists iff the list is non-empty, and it is in range |
| `ResourceSelector.GetMediaData` | test/middleware/srgssr.spec.js:334-337 | undefined iff the list is absent or empty; otherwise always one of the input resources |
| `ResourceSelector.SelectionIsBestRanked` | test/middleware/srgssr.spec.js:291-332 | the selection is the first resource of lowest rank (token, then HLS on Safari, then DASH, then anything) |
| `ResourceSelector.BestIndexUnique` | test/middleware/srgssr.spec.js:291-332 | only one resource is the first of lowest rank |
| `ResourceSelector.IsFirstIgnored` | test/middleware/srgssr.spec.js:292-332 | changing the `isFirst` flags of any resources never changes the selection |
| `ResourceSelector.TokenBearingFirst` | test/middleware/srgssr.spec.js:292-304 | the first resource with tokenType AKAMAI wins, on every browser |
| `ResourceSelector.SafariPrefersHls` | test/middleware/srgssr.spec.js:306-315 | on Safari, without token-bearing resources, the first HLS resource wins even after a DASH one |
| `ResourceSelector.OtherwisePrefersDash` | test/middleware/srgssr.spec.js:317-322 | off Safari, or on Safari without HLS, and without token-bearing resources, the first DASH resource wins even after an HLS one |
| `ResourceSelector.FallsBackToFirst` | test/middleware/srgssr.spec.js:324-332 | with no token-bearing resource, no DASH and no HLS on Safari, the first resource wins |
| `SourceComposer.ComposeSrcMediaData` | test/middleware/srgssr.spec.js:210-225 | `src` is the resource URL, `type` its MIME type, `keySystems` its key systems; the caller's `disableTrackers` and `mediaData` come back unchanged |
| `SourceComposer.EmptyContextLeavesOptionalKeysUndefined` | test/middleware/srgssr.spec.js:217-223 | an empty context and a DRM-free resource leave `keySystems`, `disableTrackers` and `mediaData` undefined |
| `Middleware.ErrorEvents` | test/middleware/srgssr.spec.js:346-360 | the log of `error` holds no `player.localize` call (lines 346-360 watch only `player.error`; that `error` does not localize is a decision listed above) |
| `Middleware.BlockingReasonEvents` | test/middleware/srgssr.spec.js:55-77 | `blockingReason` localizes iff there is a reason |
| `Middleware.DataProviderErrorEvents` | test/middleware/srgssr.spec.js:232-255 | the log of `dataProviderError` holds no `player.localize` call (lines 232-255 watch only `SrgSsr.error`; that `dataProviderError` does not localize is a decision listed above) |
| `Middleware.Caught` | test/middleware/srgssr.spec.js:577-579 | the `catch` ends the call undefined iff the failure is a rejected request with a URL; otherwise `next` gets that failure and no source |
| `Middleware.Finish` | test/middleware/srgssr.spec.js:593-624 | the call ends undefined iff the selected resource has a block reason; otherwise `next` gets a null error and the descriptor composed from that resource |
| `Middleware.Select` | test/middleware/srgssr.spec.js:334-337 | `next` gets exactly one of an error and a source; no candidate means the no-playable-resource failure |
| `Middleware.Prepare` | test/middleware/srgssr.spec.js:504-508 | `next` gets exactly one of an error and a source; a rejected token exchange is passed on as the failure of that resource |
| `Middleware.Resolve` | test/middleware/srgssr.spec.js:472-652 | the pure model of `setSource`: `next` gets exactly one of an error and a source, and an undefined source object fails with the missing-source error (the `MiddlewareProperties` lemmas fix the rest) |
| `Middleware.Player.constructor` | test/middleware/srgssr.spec.js:35-47 | a fresh player has an empty log |
| `Middleware.Player.Error` | test/middleware/srgssr.spec.js:346-360 | logs the call, then `player.error(null)`, then `player.error(err)` |
| `Middleware.Player.BlockingReason` | test/middleware/srgssr.spec.js:55-77 | true iff there is a reason, after localizing and raising `{errorType: reason, src}`; otherwise nothing is localized or raised |
| `Middleware.Player.DataProviderError` | test/middleware/srgssr.spec.js:232-255 | true iff the error is a rejected request with a URL, after raising an error carrying it; otherwise nothing is raised |
| `Middleware.Player.Catch` | test/middleware/srgssr.spec.js:577-579 | a reported failure ends the call undefined; any other failure goes to `next(error)` |
| `Middleware.Player.SetSource` | test/middleware/srgssr.spec.js:472-652 | the outcome and the new log are exactly those of `Resolve` for the same inputs |
| `Middleware.Player.PrepareSource` | test/middleware/srgssr.spec.js:504-508 | filtering, key systems, tokens and selection run as `Prepare` describes |
| `Middleware.Player.SelectSource` | test/middleware/srgssr.spec.js:507-508 | selection and composition run as `Select` describes |
| `Middleware.Player.FinishSource` | test/middleware/srgssr.spec.js:508-511 | composition, the blocking check and the analytics, poster and title-bar updates run as `Finish` describes |
| `MiddlewareProperties.UndefinedSourceFailsAtEntry` | test/middleware/srgssr.spec.js:555-591 | an undefined source calls `next` with an error, and no fetch, compose, select or update step runs |
| `MiddlewareProperties.RejectedFetch` | test/middleware/srgssr.spec.js:626-651 | a rejection with a URL makes `dataProviderError` report it and the result undefined; one without a URL goes to `next` |
| `MiddlewareProperties.BlockedSelection` | test/middleware/srgssr.spec.js:593-624 | a selected resource with block reason R: undefined result, `blockingReason` called with R, error `{errorType: R, src}` raised, no updates |
| `MiddlewareProperties.ResolvedSelection` | test/middleware/srgssr.spec.js:496-511 | a normal run calls every step once in pipeline order, raises nothing and calls `next(null, descriptor)` |
| `MiddlewareProperties.RejectedToken` | test/middleware/srgssr.spec.js:31 | a rejected token exchange goes to `next(error)` after the token step; nothing is selected or raised (the suite's token service never rejects) |
| `MiddlewareProperties.NothingToSelect` | test/middleware/srgssr.spec.js:334-337 | with no candidate left, the call goes to `next(error)` without composing or raising |
| `MiddlewareProperties.OutcomesAreExclusive` | test/middleware/srgssr.spec.js:472-652 | on every input: poster and title bar are updated iff `next` gets a null error, `next` gets a descriptor iff its error is null, and an error is raised iff the call ends undefined |
| `MiddlewareProperties.HlsAndDashResolveToDash` | test/middleware/srgssr.spec.js:317-322 | a media with one HLS and one DASH resource, neither needing a token and the DASH one not blocked, resolves off Safari to the DASH resource's URL and type, whatever DRM either carries |
| `MiddlewareProperties.ResolvedSourceIsCompatibleResource` | test/middleware/srgssr.spec.js:496-511 | a resolved descriptor has the MIME type, and unless tokenized the URL, of a compatible fetched resource |
| `MiddlewareProperties.ErrorRaisesClearedThenError` | test/middleware/srgssr.spec.js:346-360 | `error` calls `player.error` exactly twice, first with `null`, then with the error |
| `MiddlewareProperties.BlockingReasonRaisesOnlyForReason` | test/middleware/srgssr.spec.js:55-77 | the `player.error` calls are exactly `null`, then `{errorType: reason, src}` when there is a reason, and none otherwise; localizing and raising happen iff there is a reason; the last two `player.error` calls are `null`, then `{errorType: reason, src}` |
| `MiddlewareProperties.DataProviderErrorRaisesOnlyWithUrl` | test/middleware/srgssr.spec.js:232-255 | the `player.error` calls are exactly `null`, then an error carrying the rejection, for a rejected request with a URL, and none otherwise; an error is raised iff that is the case |
| `MiddlewareProperties.BlockingReasonOnFreshPlayer` | test/middleware/srgssr.spec.js:55-77 | no reason: undefined and an untouched player; STARTDATE: true, localized, second `player.error` call with `{errorType: 'STARTDATE', src: {}}` |
| `MiddlewareProperties.DataProviderErrorOnFreshPlayer` | test/middleware/srgssr.spec.js:232-255 | `{}`: undefined and nothing raised; a 404 naming its URL: true and an error raised |

## Left out

- Metadata fetching (`getMediaComposition`, `DataProvider`, `dataProvider(player)`) is a network client. It becomes the parameter `fetch`, which gives the main resources of the media or a rejection `{url, status, statusText}`. The MediaComposition document, its chapters and `getMainResources` are not part of this model.
- The token service is the parameter `tokenize`. Its concurrent fan-out is modelled as a sequential map, so "the first rejection" means first in list order, not first in time.
- `updatePoster`, `updateTitleBar` and `srgAnalytics` act on the player through helpers outside the core (`Image.scale`, `titleBar`). Only their calls are logged.
- The localized message text and the `MediaError` code are host-player internals. Errors carry only their `metadata`, and `player.localize` calls are logged without their key.
- The count of 2 at test/middleware/srgssr.spec.js:373 depends on the fixture `urn:rts:audio:3262320.json`, which is not part of this model.
- No lemma covers PLAYREADY or unknown DRM types, because the suite does not exercise them.
- The descriptive resource fields (vendor, title, id, quality, live, dvr, analytics data) are left out, because nothing in the core reads them.
- Nothing is modelled of what the `next` callback returns. `Completion` records only whether `next` was called, and with what.
- A source object that is present but has no `src` is not treated separately. Its URN goes to `fetch` like any other.
- Player.BlockingReason: returns false where the source returns `undefined`.
- Player.DataProviderError: returns false where the source returns `undefined`.
