# DDM360 music streaming core, in Dafny

This project models the core of the DDM360 music streaming application. It has two halves.

The Django backend:
- the Jamendo track model, its tag and date fields, and its formatted durations;
- the database-backed API cache and the settings table;
- the favourite counters kept by signals;
- the Jamendo views: the cache key, the request helper with its clean-up of track records, the listing views with their `limit` handling, and the track detail view;
- the Spotify views: the HTTP Basic client credential, token exchange and refresh, configuration, and the Web API proxy;
- the display helpers of the Jamendo admin pages.

The Vue frontend's two player composables:
- Jamendo: playlist navigation, the play/pause gate around the audio element, loading a track, the controls, and disconnecting;
- Spotify: how Web Playback SDK reports are copied into the state, the Web API requests the controls compute, and refresh and disconnect.

Everything is pure functions over immutable datatypes. Whatever the code does not control is an input:
- the clock;
- the network and the answers of Jamendo's and Spotify's servers;
- how an `Audio` element's `play()` promise settles, and whether loading a source ends in `canplay`, `error` or the timeout;
- `Math.random()`;
- the MD5 function.

Each view or action returns what it would send, next to its result, so the requests can be stated too.

Modules, one per file:
- `Wrappers` — `Option` and `Result`.
- `Arithmetic` — monotonicity of multiplication and uniqueness of the remainder.
- `Decimal` — digit strings, Python's `:02d`, `str(int)` and `int(str)`.
- `Clock` — `mm:ss` and `hh:mm:ss`, with a reader that recovers the seconds.
- `Json` — decoded JSON values, Python truthiness, `dict.get`, and the `json.dumps`/`json.loads` codec for lists of strings.
- `Html` — Django's `escape` as `format_html` applies it, and its inverse.
- `Base64` — UTF-8 and the base 64 alphabet of section 4 of RFC 4648.
- `Text` — substring search.
- `ParamOrder` — `sorted(params.items())`.
- `TrackModel` — `JamendoTrack`.
- `ApiCache` — `JamendoAPICache`.
- `SettingsStore` — `SystemSettings`.
- `Favourites` — the favourite signals.
- `Responses` — `JsonResponse`.
- `JamendoViews` and `SpotifyViews` — the two view files.
- `JamendoAdmin` — the admin pages.
- `JamendoState` — the Jamendo player record and the play/pause gate.
- `PlaylistPolicy` — next/previous index rules.
- `JamendoPlayer` — the Jamendo composable's actions.
- `SpotifyPlayer` — the Spotify composable.

## Model

| member | source | states |
|---|---|---|
| Clock.MinutesSecondsReadsBack | backend/apps/jamendo/models.py:72-78 | the `mm:ss` text of a duration reads back as minutes·60+seconds = the duration; a falsy duration shows "00:00" |
| Clock.HoursMinutesSecondsReadsBack | backend/apps/jamendo/models.py:409-419 | the total listening time shows three fields exactly from one hour on, two below, and its fields recombine to the total |
| Json.LoadDumpStrings | backend/apps/jamendo/models.py:84 | `json.loads(json.dumps(xs)) == xs` for every list of strings |
| Html.UnescapeEscape | backend/apps/jamendo/admin.py:104-110 | the URL `format_html` escapes into the page is shown unchanged by the browser |
| Html.EscapeIsInert | backend/apps/jamendo/admin.py:117-120 | escaped text holds none of `<`, `>`, `"`, `'`, so it cannot close the attribute |
| Base64.DecodeEncode | backend/apps/spotify/views.py:18 | decoding the base 64 encoding gives back the bytes (section 4 of RFC 4648) |
| Base64.DecodeUtf8Encode | backend/apps/spotify/views.py:17-18 | `credentials.encode()` is reversible: UTF-8 decoding recovers the text |
| TrackModel.TagText | backend/apps/jamendo/models.py:113-123 | a setter stores "" exactly for an empty list |
| TrackModel.TagRoundTrip | backend/apps/jamendo/models.py:81-123 | what `set_genres` (and its siblings) stores, `genres_list` gives back |
| TrackModel.TagList | backend/apps/jamendo/models.py:80-102 | an empty field reads as no tags, and a non-empty tag list is read only from the exact text a setter writes for it |
| Json.DumpLoadStrings | backend/apps/jamendo/models.py:84 | the reader accepts nothing but the encoder's own text: what it reads, dumping writes back exactly |
| TrackModel.AllTags | backend/apps/jamendo/models.py:105-111 | `all_tags` holds each tag of the three lists exactly once and nothing else |
| TrackModel.ParseDate | backend/apps/jamendo/models.py:157-162 | only real calendar dates in `%Y-%m-%d` parse |
| TrackModel.ParseDateText | backend/apps/jamendo/models.py:157-162 | every date parses back from its ISO text |
| TrackModel.FirstMissing | backend/apps/jamendo/models.py:133-149 | the first required key the data lacks, in evaluation order, and none exactly when all are present |
| TrackModel.SubObject | backend/apps/jamendo/models.py:130-131 | `.get(key, {})` succeeds exactly when the key is absent or holds an object |
| TrackModel.TagField | backend/apps/jamendo/models.py:152-154 | a missing or falsy tag value stores ""; a list of strings is stored as its JSON |
| TrackModel.ReleaseDate | backend/apps/jamendo/models.py:156-162 | the release date is set only from a truthy string that parses, and is otherwise left empty |
| TrackModel.CreateTrack | backend/apps/jamendo/models.py:126-166 | a `musicinfo` that is not an object raises first; then the first missing required key, in argument order, raises `ValueError` naming it; with all keys present the record is built |
| TrackModel.Construct | backend/apps/jamendo/models.py:130-162 | every field but `stats_rate` is copied, with the defaults of the `.get` calls, and the tags and release date are set; only a `stats` or `tags` that is not an object, or tags outside the model, fail |
| TrackModel.TagFieldRoundTrip | backend/apps/jamendo/models.py:152-154 | a tag list given to the constructor reads back from the stored field |
| ApiCache.Get | backend/apps/jamendo/models.py:349-364 | an entry is returned until and at its expiry instant; an expired one is deleted |
| ApiCache.Set | backend/apps/jamendo/models.py:367-377 | `update_or_create` writes the data and the expiry, keeps the creation time of an existing row and touches no other key |
| ApiCache.GetAfterSet | backend/apps/jamendo/models.py:349-377 | a value set with a time-to-live reads back exactly until the expiry instant |
| ApiCache.GetOtherAfterSet | backend/apps/jamendo/models.py:367-377 | writing one key does not change what another key reads |
| ApiCache.ExpiredStaysGone | backend/apps/jamendo/models.py:358-362 | once a read found an entry expired, later reads find nothing |
| SettingsStore.Get | backend/apps/jamendo/models.py:489-495 | the stored text, or the default for a missing key |
| SettingsStore.Set | backend/apps/jamendo/models.py:498-507 | the key holds `str(value)` and the description, and no other key changes |
| SettingsStore.GetAfterSet | backend/apps/jamendo/models.py:489-507 | after a set, get returns the text of the value whatever the default |
| SettingsStore.IntSettingReadsBack | backend/apps/jamendo/models.py:498-507 | an integer setting reads back as the same integer through `int()` |
| SettingsStore.GetOtherAfterSet | backend/apps/jamendo/models.py:489-507 | other keys keep their values |
| Favourites.OnSaved | backend/apps/jamendo/models.py:522-528 | only a newly created favourite increments the counter |
| Favourites.OnDeleted | backend/apps/jamendo/models.py:530-534 | deleting a favourite decrements the counter but never below zero |
| Favourites.NeverNegative | backend/apps/jamendo/models.py:522-534 | from a non-negative start the counter stays non-negative under any sequence of saves and deletes |
| Favourites.CountsFavourites | backend/apps/jamendo/models.py:522-534 | a counter that starts equal to the number of favourite rows stays equal to it |
| ParamOrder.StrLtTransitive | backend/apps/jamendo/views.py:27 | Python's string order is transitive |
| ParamOrder.StrLtTotal | backend/apps/jamendo/views.py:27 | any two different strings are ordered one way or the other |
| ParamOrder.Sort | backend/apps/jamendo/views.py:27 | `sorted(params.items())` is an ascending permutation of the pairs |
| ParamOrder.AscendingUnique | backend/apps/jamendo/views.py:27 | two ascending lists with the same pairs are equal |
| ParamOrder.SortOrderFree | backend/apps/jamendo/views.py:27 | the sorted pairs do not depend on the order the dictionary was built in |
| Responses.JsonResponse | backend/apps/spotify/views.py:161-165 | a response is built exactly for a dictionary body and a status in 100..599; anything else raises |
| JamendoViews.CacheKeyOrderFree | backend/apps/jamendo/views.py:25-28 | the cache key depends on the endpoint and the set of parameters, not on their order |
| JamendoViews.FinalParams | backend/apps/jamendo/views.py:42-46 | the request has the caller's pairs plus `client_id` and `format`, and a caller's pair wins |
| JamendoViews.Default | backend/apps/jamendo/views.py:71-80 | `if not track.get(k): track[k] = v` fills exactly a falsy or missing field |
| JamendoViews.FillImage | backend/apps/jamendo/views.py:67-68 | the image is taken from the album image only when the image is falsy and the album image is not |
| JamendoViews.NormaliseTrack | backend/apps/jamendo/views.py:65-80 | the four defaults are filled (duration 180, "Unknown Artist", "Unknown Album") and nothing else changes |
| JamendoViews.NormaliseFills | backend/apps/jamendo/views.py:65-80 | after the clean-up a track has a duration, artist and album name, and an image when it had either |
| JamendoViews.NormaliseClean | backend/apps/jamendo/views.py:65-80 | a track that already has the four fields is left as it is |
| JamendoViews.NormaliseIdempotent | backend/apps/jamendo/views.py:65-80 | cleaning a track twice is cleaning it once |
| JamendoViews.NormaliseResults | backend/apps/jamendo/views.py:64-80 | every track in a `results` list is cleaned, in place and in order; any other `results` except `{}` and "" makes the helper raise |
| JamendoViews.ProcessBody | backend/apps/jamendo/views.py:60-86 | a 200 body is cleaned, cached and returned; a non-dictionary body raises, after caching it when it is a list or string |
| JamendoViews.ApiRequest | backend/apps/jamendo/views.py:30-97 | a truthy cached value is returned without a request; a non-200 answer or a network error gives `None` |
| JamendoViews.CacheAfter | backend/apps/jamendo/views.py:83 | only a fetched (or crash-stored) body is written, under the key, expiring the view's timeout after the request |
| JamendoViews.Lookup | backend/apps/jamendo/views.py:36 | an entry is found only before its expiry instant |
| JamendoViews.FetchedIsClean | backend/apps/jamendo/views.py:60-86 | a body the helper returns has every track cleaned already |
| JamendoViews.Config | backend/apps/jamendo/views.py:100-107 | `available` and `status` say whether a client id is set |
| JamendoViews.Limit | backend/apps/jamendo/views.py:114 | `limit` defaults to 20, raises when it is not an integer, and is capped at 200 |
| JamendoViews.LimitPassesSmallValues | backend/apps/jamendo/views.py:114 | the limit has no lower bound |
| JamendoViews.ListingParams | backend/apps/jamendo/views.py:122-127 | the listing parameters have distinct keys |
| JamendoViews.Reply200 | backend/apps/jamendo/views.py:131-134 | a truthy helper result is returned with 200, `None` gives 500 "Jamendo API 錯誤" |
| JamendoViews.Serve | backend/apps/jamendo/views.py:30-97 | a live truthy entry is answered without a request; a network error, another status or an unreadable body gives 500 and caches nothing; a usable 200 body is cached for the timeout and answered |
| JamendoViews.ServeRepeats | backend/apps/jamendo/views.py:30-97 | after a 200 answer the entry lives the timeout from a fetch; until it expires, serving the key again repeats the answer, and afterwards upstream decides |
| JamendoViews.ListTracks | backend/apps/jamendo/views.py:111-207 | a bad limit raises before anything else, then a missing query or tag gives 400 with its message, then a missing client id gives 500; otherwise the helper runs under the listing's parameters and timeout (1 h, 2 h, 1 h, 30 min) |
| JamendoViews.ListingRepeatsFromCache | backend/apps/jamendo/views.py:111-207 | asking a listing again after a successful answer is served from the cache, whatever upstream would do, until the listing's timeout has passed; then upstream decides |
| JamendoViews.RandomRequest | backend/apps/jamendo/views.py:211-229 | the random listing asks for `order=random` with the client id and the limit, once the limit and configuration checks pass |
| JamendoViews.RandomTracks | backend/apps/jamendo/views.py:211-242 | the random listing bypasses the cache; a network error or unreadable body is 500 with its text, another status 500 "Jamendo API 錯誤", a non-object body 500 with `JsonResponse`'s message, and an object is returned with 200 |
| JamendoViews.DetailParams | backend/apps/jamendo/views.py:251-255 | the detail parameters have distinct keys, and the id is the integer the `<int:track_id>` route converts |
| JamendoViews.FirstResult | backend/apps/jamendo/views.py:259-262 | the first of a truthy `results` is returned; otherwise 404 "找不到音軌" |
| JamendoViews.TrackDetail | backend/apps/jamendo/views.py:246-262 | a missing client id gives 500; otherwise the helper runs with a one-day timeout, `None` gives 404, and a cached or fetched body answers its first result |
| JamendoViews.DetailRepeatsFromCache | backend/apps/jamendo/views.py:246-262 | a track found once is answered again from the cache, whatever upstream would do, until its entry expires a day after the fetch |
| SpotifyViews.TokenHeaders | backend/apps/spotify/views.py:15-22 | exactly the Authorization and form Content-Type headers |
| SpotifyViews.AuthorizationReadsBack | backend/apps/spotify/views.py:15-22 | a server that decodes the Basic credential (section 2 of RFC 7617) recovers the client id and secret |
| SpotifyViews.RequestFields | backend/apps/spotify/views.py:29-30 | a body that is not a JSON object fails with the `AttributeError` of `.get` or the decoder's message |
| SpotifyViews.TokenResponse | backend/apps/spotify/views.py:49-67 | a 200 answer is picked into the view's body; another status gives 400 with the details; a raise gives 500 with its message |
| SpotifyViews.ExchangeFields | backend/apps/spotify/views.py:51-56 | a successful exchange returns exactly the four token fields |
| SpotifyViews.ExchangeCode | backend/apps/spotify/views.py:26-67 | a missing code or redirect URI gives 400 before any request; otherwise the code is exchanged |
| SpotifyViews.RefreshFields | backend/apps/spotify/views.py:94-100 | the refresh token returned is Spotify's when it sends one, else the one submitted |
| SpotifyViews.RefreshToken | backend/apps/spotify/views.py:71-111 | a missing refresh token gives 400 before any request; otherwise it is refreshed |
| SpotifyViews.RefreshKeepsToken | backend/apps/spotify/views.py:92-100 | when Spotify sends no new refresh token, the client gets back the one it submitted |
| SpotifyViews.Config | backend/apps/spotify/views.py:115-120 | `available` exactly when both the id and the secret are set |
| SpotifyViews.Dispatch | backend/apps/spotify/views.py:143-152 | the method is recognised exactly when its `upper()` is GET, POST, PUT or DELETE |
| SpotifyViews.DispatchLowerCase | backend/apps/spotify/views.py:143-146 | lower-case get and post dispatch like upper-case ones |
| SpotifyViews.DispatchLowerCaseWrites | backend/apps/spotify/views.py:147-150 | lower-case put and delete dispatch like upper-case ones |
| SpotifyViews.DispatchLongS | backend/apps/spotify/views.py:145 | `'ſ'.upper()` is `'S'`, so 'poſt' is accepted as POST |
| SpotifyViews.DispatchPatch | backend/apps/spotify/views.py:151-152 | PATCH is refused |
| SpotifyViews.PassThrough | backend/apps/spotify/views.py:155-165 | below 400 the JSON object is passed through, or `{'success': True}`; from 400 on an error carrying the same status |
| SpotifyViews.ProxyRequest | backend/apps/spotify/views.py:127-152 | a missing endpoint or token gives 400, an unknown method 405; the payload is sent only with POST and PUT |
| SpotifyViews.Proxy | backend/apps/spotify/views.py:124-170 | a refused request sends nothing; an accepted one is sent and Spotify's answer relayed |
| JamendoAdmin.DurationDisplay | backend/apps/jamendo/admin.py:92-98 | the `mm:ss` text reads back as the duration, and is "00:00" exactly for zero |
| JamendoAdmin.FloorDivAtLeastSigned | backend/apps/jamendo/admin.py:308 | the floor of the quotient reaches a whole threshold exactly when the quotient does |
| JamendoAdmin.Tier | backend/apps/jamendo/admin.py:312 | green exactly when played·100 ≥ 80·duration, red exactly below 50·duration (with the inequalities reversed for a negative duration) |
| JamendoAdmin.TierMonotone | backend/apps/jamendo/admin.py:312 | a track played further never gets a worse colour |
| JamendoAdmin.CompletionDisplay | backend/apps/jamendo/admin.py:305-321 | the intended display: "無數據" exactly when either value is zero; otherwise the colour and both `mm:ss` texts, which read back |
| JamendoAdmin.CompletionFieldAsWritten | backend/apps/jamendo/admin.py:305-321 | as written (the field is read-only per line 244) the change form shows "-" exactly when the intended display has a colour, and "無數據" otherwise |
| JamendoAdmin.CompletionRateHidden | backend/apps/jamendo/admin.py:314-320 | a track half played should show orange, but the page shows "-" |
| JamendoAdmin.UserDisplay | backend/apps/jamendo/admin.py:270-275 | a user shows as name and e-mail, an anonymous play by the first eight characters of its session |
| JamendoAdmin.AnonymousLabelsAgree | backend/apps/jamendo/admin.py:275 | two anonymous labels are equal exactly when their sessions agree on the first eight characters |
| JamendoAdmin.Section | backend/apps/jamendo/admin.py:128-134 | a line appears exactly when the field holds a non-empty list |
| JamendoAdmin.SectionOfStored | backend/apps/jamendo/admin.py:128-134 | a stored list shows as its items separated by commas |
| JamendoAdmin.Sections | backend/apps/jamendo/admin.py:126-150 | the sections are empty exactly when no field holds tags |
| JamendoAdmin.TagsDisplay | backend/apps/jamendo/admin.py:124-152 | "無標籤信息" exactly when none of the three fields holds tags |
| JamendoAdmin.EmbedSource | backend/apps/jamendo/admin.py:101-120 | the embedded URL reaches the browser unchanged and cannot end the attribute early |
| JamendoAdmin.AudioPreview | backend/apps/jamendo/admin.py:101-111 | "無音頻文件" without audio; otherwise a player whose source is the audio URL |
| JamendoAdmin.ImagePreview | backend/apps/jamendo/admin.py:114-121 | "無圖片" without an image; otherwise an image whose source is the image URL |
| JamendoState.Initialize | frontend/src/composables/useJamendo.js:58-63 | a fresh element is paused, not ended and without a source; nothing else changes |
| JamendoState.PauseEngine | frontend/src/composables/useJamendo.js:82-85 | pausing a playing element clears `isPlaying`; a paused one is left alone |
| JamendoState.SafePlay | frontend/src/composables/useJamendo.js:324-355 | the promise slot is empty afterwards; a started play is playing; an interruption is swallowed and any other rejection rethrown |
| JamendoState.SafePause | frontend/src/composables/useJamendo.js:358-377 | never throws, clears the slot and leaves the element paused and `isPlaying` false |
| JamendoState.SafePauseIdempotent | frontend/src/composables/useJamendo.js:358-377 | pausing twice is pausing once |
| PlaylistPolicy.NextRepeat | frontend/src/composables/useJamendo.js:457-462 | off → all → one → off, and an unknown mode → off |
| PlaylistPolicy.RepeatCycle | frontend/src/composables/useJamendo.js:457-462 | three toggles come back to the starting mode |
| PlaylistPolicy.NextIndex | frontend/src/composables/useJamendo.js:477-499 | an empty list stops; repeat one stays; past the end stops unless repeat all wraps to 0; shuffle draws only when it would move |
| PlaylistPolicy.NextInRange | frontend/src/composables/useJamendo.js:477-499 | from inside the playlist "next" stays inside it |
| PlaylistPolicy.PreviousIndex | frontend/src/composables/useJamendo.js:403-413 | one back, wrapping to the end under all and stopping at 0 otherwise |
| PlaylistPolicy.PreviousInRange | frontend/src/composables/useJamendo.js:403-413 | from inside the playlist "previous" stays inside it |
| PlaylistPolicy.PreviousUndoesNext | frontend/src/composables/useJamendo.js:403-499 | under repeat all without shuffle, previous and next undo each other |
| PlaylistPolicy.WalkOff | frontend/src/composables/useJamendo.js:477-499 | with repeat off the playlist plays once through, in order, and then stops |
| PlaylistPolicy.WalkAll | frontend/src/composables/useJamendo.js:477-499 | with repeat all, n presses move n places modulo the length |
| PlaylistPolicy.WalkOne | frontend/src/composables/useJamendo.js:477-499 | with repeat one "next" never moves |
| JamendoPlayer.SetPlaylist | frontend/src/composables/useJamendo.js:465-469 | the playlist and start index are set and nothing else changes |
| JamendoPlayer.ClearPlaylist | frontend/src/composables/useJamendo.js:471-475 | the playlist is emptied and the index reset, and nothing else changes |
| JamendoPlayer.TrackAt | frontend/src/composables/useJamendo.js:415-417 | a playlist index outside the list gives `undefined` |
| JamendoPlayer.AudioUrl | frontend/src/composables/useJamendo.js:273 | the audio URL is preferred to the download URL, and "" exactly when both are missing |
| JamendoPlayer.Fail | frontend/src/composables/useJamendo.js:313-320 | a failure records "播放失敗: " and the message and lowers the loading flag |
| JamendoPlayer.Resume | frontend/src/composables/useJamendo.js:249-255 | a loaded track is resumed only if paused, keeping its source; a play that starts ends playing, an interruption records nothing, and another rejection records its message |
| JamendoPlayer.Prepare | frontend/src/composables/useJamendo.js:257-270 | loading starts with the error cleared, the playlist set when one is given and the element paused |
| JamendoPlayer.Attach | frontend/src/composables/useJamendo.js:278-309 | the source is set; a load error or timeout records its message; the loading flag always ends lowered |
| JamendoPlayer.Start | frontend/src/composables/useJamendo.js:309-316 | a started play plays; a swallowed interruption records nothing; another rejection records its message |
| JamendoPlayer.Load | frontend/src/composables/useJamendo.js:257-316 | a new track is current and its URL is the source; a track without a URL fails with "沒有可用的音頻 URL" |
| JamendoPlayer.PlayTrack | frontend/src/composables/useJamendo.js:238-321 | an undefined track fails; the same unfinished track is not reloaded; any other track is loaded and the playlist set |
| JamendoPlayer.EndedTrackReloads | frontend/src/composables/useJamendo.js:249 | a track that has ended is reloaded even when it is the current one |
| JamendoPlayer.GoTo | frontend/src/composables/useJamendo.js:415-417 | the index moves and the track there plays; an index outside the list fails with the `undefined` error |
| JamendoPlayer.PlayNext | frontend/src/composables/useJamendo.js:477-504 | no next index changes nothing; an index inside the playlist is moved to and its track played; an index outside it is stored and nothing else changes |
| JamendoPlayer.Previous | frontend/src/composables/useJamendo.js:403-422 | an empty playlist changes nothing; otherwise the index moves one back (wrapping under all) and the track there plays |
| JamendoPlayer.NavigationStaysInRange | frontend/src/composables/useJamendo.js:403-504 | a session whose index lies inside its playlist keeps it there through next and previous |
| JamendoPlayer.LastTrackStops | frontend/src/composables/useJamendo.js:489-494 | at the last track with repeat off, next changes nothing, even with shuffle |
| JamendoPlayer.TogglePlay | frontend/src/composables/useJamendo.js:380-401 | nothing without an element or a track, or while loading; otherwise playing pauses and paused plays |
| JamendoPlayer.SetVolume | frontend/src/composables/useJamendo.js:444-450 | the level is clamped to 0..100, and nothing happens before the element exists |
| JamendoPlayer.SetVolumeIdempotent | frontend/src/composables/useJamendo.js:444-450 | setting a volume twice is setting it once |
| JamendoPlayer.ToggleShuffle | frontend/src/composables/useJamendo.js:452-455 | only the shuffle flag flips |
| JamendoPlayer.ToggleShuffleInvolution | frontend/src/composables/useJamendo.js:452-455 | toggling shuffle twice changes nothing |
| JamendoPlayer.ToggleRepeat | frontend/src/composables/useJamendo.js:457-462 | only the repeat mode moves to its successor |
| JamendoPlayer.ToggleRepeatThrice | frontend/src/composables/useJamendo.js:457-462 | three repeat toggles change nothing; an unknown mode goes to off |
| JamendoPlayer.TrackEnded | frontend/src/composables/useJamendo.js:91-97 | the end of a track clears `isPlaying` and moves on only with auto-next and a playlist |
| JamendoPlayer.RepeatOneReplays | frontend/src/composables/useJamendo.js:506-516 | with repeat one the end of a track starts it again from its source |
| JamendoPlayer.ResetSession | frontend/src/composables/useJamendo.js:541-556 | the element is paused and emptied but kept, the session reset with the error cleared, and the settings kept |
| JamendoPlayer.Disconnect | frontend/src/composables/useJamendo.js:541-556 | as `ResetSession`, and with an element the `error` event of its empty source (listener at lines 99-104) then records "音頻載入失敗" |
| JamendoPlayer.DisconnectedToggleIsNoop | frontend/src/composables/useJamendo.js:380-401 | after disconnecting, play/pause does nothing |
| SpotifyPlayer.ModeOf | frontend/src/composables/useSpotify.js:263-264 | codes 1 and 2 give context and track; every other code gives off |
| SpotifyPlayer.ModeCodeRoundTrip | frontend/src/composables/useSpotify.js:263-264 | the three codes and the three mode names correspond one to one |
| SpotifyPlayer.NextMode | frontend/src/composables/useSpotify.js:445-449 | the requested mode is always one of the three, and off for an unknown mode |
| SpotifyPlayer.NextModeSteps | frontend/src/composables/useSpotify.js:447-449 | off → context → track → off |
| SpotifyPlayer.NextModeCycle | frontend/src/composables/useSpotify.js:447-449 | three steps come back to the starting mode |
| SpotifyPlayer.Seconds | frontend/src/composables/useSpotify.js:259-260 | the whole seconds are the floor of the milliseconds over 1000 |
| SpotifyPlayer.StateChanged | frontend/src/composables/useSpotify.js:253-265 | a null report changes nothing; otherwise track, play state (not paused), floored times, shuffle and mode are copied, and the token and volume are kept |
| SpotifyPlayer.ReadEndpoint | frontend/src/composables/useSpotify.js:430-451 | the query parameter the endpoint carries reads back as the value put in |
| SpotifyPlayer.ToggleRepeat | frontend/src/composables/useSpotify.js:445-455 | requests the next mode and changes nothing locally |
| SpotifyPlayer.RepeatEcho | frontend/src/composables/useSpotify.js:253-264 | once the SDK reports the requested mode, the state shows it |
| SpotifyPlayer.ToggleShuffle | frontend/src/composables/useSpotify.js:436-443 | requests the opposite of the current flag and changes nothing locally |
| SpotifyPlayer.ShuffleEcho | frontend/src/composables/useSpotify.js:436-443 | two presses of shuffle, each answered by the SDK, restore the flag |
| SpotifyPlayer.JsRem | frontend/src/composables/useSpotify.js:428 | JavaScript's `%`: the remainder has the dividend's sign and differs from it by a multiple of the divisor |
| SpotifyPlayer.Step | frontend/src/composables/useSpotify.js:428 | without a percentage, 0..99 go up by ten and 100 wraps to 0 |
| SpotifyPlayer.SetVolume | frontend/src/composables/useSpotify.js:426-434 | a given percentage is stored unclamped, otherwise the stepped volume; only the volume changes, and the request carries it |
| SpotifyPlayer.VolumeParamReadsBack | frontend/src/composables/useSpotify.js:430 | the number in the request is the stored volume |
| SpotifyPlayer.PressesFromZero | frontend/src/composables/useSpotify.js:428 | from 0 the volume button cycles through the eleven levels 0, 10, …, 100 |
| SpotifyPlayer.PlayUri | frontend/src/composables/useSpotify.js:375 | the track's URI when it has one, else `spotify:track:` and the id |
| SpotifyPlayer.UriNamesTrack | frontend/src/composables/useSpotify.js:375 | the URI built for a track without one names its id |
| SpotifyPlayer.PlayTrack | frontend/src/composables/useSpotify.js:371-388 | a play request for this device with exactly one URI; an undefined track fails with the alert text |
| SpotifyPlayer.Disconnect | frontend/src/composables/useSpotify.js:150-165 | both stored tokens are removed and connection, player, track, play state and token cleared; the other state is kept |
| SpotifyPlayer.DisconnectIdempotent | frontend/src/composables/useSpotify.js:150-165 | disconnecting twice is disconnecting once |
| SpotifyPlayer.Refresh | frontend/src/composables/useSpotify.js:331-367 | without a stored refresh token it disconnects before any request; a new access token is used and stored; a new refresh token is stored only when one is returned; any failure disconnects |
| SpotifyPlayer.RefreshKeepsRefreshToken | frontend/src/composables/useSpotify.js:331-367 | after a refresh a usable refresh token is stored exactly when the session was renewed |
| SpotifyPlayer.SavedPreserved | frontend/src/composables/useSpotify.js:150-367 | every operation keeps the token in use equal to the stored access token |

## Left out

- I/O is outside the model: the network, `requests`, `fetch`, the Django ORM and the Django cache backend, `localStorage`, `alert` and logging. The servers' answers are inputs, and the stores are maps.
- The Spotify SDK script loading, the `connectSpotify`/`handleAuthCallback`/`validateToken`/`initializePlayer` flows and the `ready`/`not_ready`/error listeners belong to the connection flow, which is not modelled.
- The 401 refresh-and-retry in `spotifyAPI` is unbounded recursion and depends on the server's answers, so it is not modelled. Spotify requests are values, and whether the Web API accepts them is not modelled.
- The Spotify `togglePlay`, `previousTrack`, `nextTrack`, `seek` and the search, recommendation, playlist and device lists are single requests with no state. They are not modelled.
- Floating point is not modelled:
  - `completion_rate` and the percentage text with one decimal;
  - `stats_display`;
  - `volume / 100` on the audio element;
  - `seek`, which uses DOM geometry;
  - `duration`/`currentTime` updates of the Jamendo player.
  - Completion tiers are computed on integers.
- JamendoPlayer.SetVolume: `parseInt` of a text that is not a number gives NaN in JavaScript. The model takes an integer level, so NaN is not modelled.
- Timing is not modelled:
  - the Jamendo player's `await`s are taken to run to completion one call at a time, so two overlapping calls waiting on the same pending promise are not modelled;
  - the 10-second load timeout is an input outcome.
- The Jamendo composable's `connectJamendo`/`checkConfig`, the search wrappers (`jamendoAPI`, `searchTracks`, …), `healthCheck` and `getAvailableTags` are thin wrappers around `fetch` and are not modelled. So are the backend's `health_check`, `get_available_tags` and `jamendo_api_proxy`.
- JamendoPlayer.Attach: the `loadstart` listener raises the loading flag, and the `stalled` and `suspend` listeners lower it, while a source loads. The model follows only `playTrack`'s own writes and the `canplay` and `error` listeners, so a `suspend` that lowers the flag before `canplay` (letting a `togglePlay` through mid-load) is not modelled. `timeupdate` only updates the time and is not modelled.
- `UserListeningStats.update_stats` and the play-history signal that calls it are ORM aggregation over the database and are not modelled. `mark_as_completed` and the `__str__` methods are also left out.
- Admin actions `update_cache` and `clear_low_rated`, `stats_display`, `track_details` and the querysets work through the ORM and are not modelled.
- TrackModel.TagList: a field holding valid JSON that is not a list (`"rock"`, `{"a": 1}`, `3`) makes the getter return that value in Python. The model's result is a list of strings, so it reads such text as no tags. The reader also accepts only the encoder's own layout, as `Json.DumpLoadStrings` states: JSON with other whitespace or with `\uXXXX` escapes reads as no tags. That includes what Python's `set_genres` stores for non-ASCII tags.
- TrackModel.TagField: a truthy tag value that is not a list of strings (a string, number, dictionary or mixed list) is stored by Python as its `json.dumps`. The model fails the constructor with `UnsupportedTags` instead, because the encoder covers lists of strings only.
- TrackModel.Construct: `stats_rate` (`stats.get('rate', 0.0)`) is a float and is not part of the record. `cached_at` and `created_at` are set by the database and are not modelled either.
- JamendoAdmin.TagsDisplay: a tag field holding JSON that is not a list of strings shows no line. Python would show a line for a non-empty dictionary (joining its keys), and would skip a list holding non-strings only because of its bare `except`. The model reads only lists of strings.
- Json.LoadDumpStrings: `json.dumps` escapes non-ASCII characters and control characters as `\uXXXX` (`ensure_ascii`). The model's encoder escapes only `"` and `\`. The round trip is stated for that encoder.
- SpotifyViews.Dispatch: `str.upper()` is modelled for ASCII and the characters whose upper case is ASCII (`ß`, `ı`, `ſ`, the `ﬀ`–`ﬆ` ligatures). Other non-ASCII characters are mapped to themselves, which is enough to decide whether the result is one of the four verbs.
- The token views' `requests.post(data=...)` form encoding is not modelled. The form is reported as a map.
- A `JSONDecodeError` from `response.json()` is taken to be a `requests` exception, as in `requests` 2.27 and later. The Jamendo helper's `except requests.exceptions.RequestException` therefore catches it (`None`), and `random_tracks`' `except Exception` reports it with its text.
- JamendoViews.Limit: `int()` is applied to any given `limit`, so an empty or non-numeric value raises and Django answers 500; it is not defaulted to 20. The limit is read before the `q`/`tag` check.
- JamendoViews.Limit: Python's `int()` also accepts underscores between digits (`"1_0"` is 10), non-ASCII decimal digits, and whitespace beyond ASCII's (such as `\x1c`-`\x1f`). The model reads ASCII digits with ASCII whitespace only, so for those texts it raises where Python does not.
- Every Jamendo view carries `@require_http_methods(["GET"])`, which answers any other method with 405 before the view runs. The views are modelled for GET requests only.
- A Spotify API status above 599 makes `JsonResponse` raise. The outer handler turns that into 500 with the `ValueError` message, and the model does the same.
- A rejected `play()` leaves the element paused. This follows the HTML standard's media element algorithm, because the composable itself does not say.
- An empty JavaScript array is truthy, so `playTrack(track, [])` replaces the playlist with the empty one.
- Two tracks without an `id` compare equal under the same-track guard (`undefined === undefined`).
- `release_date` parsing accepts exactly what `strptime('%Y-%m-%d')` accepts for ASCII digits. Locale and Unicode digits are not modelled.
- The MD5 digest of the cache key is a function parameter, not an implementation.

## Findings

| source | as written | input that shows it | evidently intended | confidence | as-written member | corrected member |
|---|---|---|---|---|---|---|
| backend/apps/jamendo/admin.py:314-320 | `format_html` escapes `rate` into text before the `{:.1f}` field formats it, so the field raises `ValueError` and the read-only field shows "-" | a play of 50 s on a 100 s track | the colour (orange), the rate with one decimal and the two `mm:ss` texts | high, not executed | JamendoAdmin.CompletionFieldAsWritten, JamendoAdmin.CompletionRateHidden | JamendoAdmin.CompletionDisplay |
