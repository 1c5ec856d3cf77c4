# Flicks: a verified model of the feed engine and the recommendation backend

Flicks is a movie recommendation app. It has two parts.

- **The iOS client.** It keeps the user's lists locally:
  - watch history, watchlist, and liked/neutral/disliked ratings;
  - a genre list derived from the liked movies.

  It shows a paged feed of recommendations out of an in-memory buffer. It tops up the buffer with de-duplicated refills when it runs low. It queues every change for the backend in a FIFO retry queue, which pauses at the first failed call.
- **The Python backend.** It stores one JSON profile per user and updates its six id lists per action. It turns a profile into a search text and queries a vector store for similar movies, with optional genre filters and excluded ids. It then maps the hits to recommendations. Two offline scripts belong to it:
  - one builds the movie index (documents, metadata, batches);
  - one grows the local movie dataset with new, de-duplicated candidates.

This project models the deterministic core of both parts in Dafny and proves what the code promises, module by module:

| module | models |
|---|---|
| `Feed` (class `UserState`) | the client's state object: lists, genres, feed buffer and window, shown set, retry-queue drain, profile hydration |
| `PendingQueue` (class `PendingActionsQueue`) | the client's FIFO queue of pending actions, and the rating wire strings |
| `ApiService` | status classification, error wrapping, endpoint URLs, request shaping and DTO-to-movie conversion of the client's gateway |
| `Environment` (class `World`) | the network as a scripted oracle: the replies the backend gives, in order, and a log of the calls made |
| `Genres` | the genre tokens of liked movies, and the sorted, duplicate-free listing of a set of strings |
| `Movies` | the client's movie record and id-based list operations |
| `UserProfile` | `user.py`: profile text, loading and normalisation, save format, `update_user_data`, `search_movies` |
| `ReccApi` | `app.py`: the `/encode` profile and keyword union, and `get_recommendations` (genre sources and override, genre normalisation, result mapping, error mapping) |
| `Encoding` | `encoding.py`: document text, backdrop fallback, metadata and flags, the preparation loop, batch slicing |
| `DiverseFetch` | `fetch_diverse_movies.py`: file precedence, existing ids, candidate de-duplication, enrichment guard, merge |
| `Json`, `Text`, `Indices`, `Wrappers` | Python values and operators, strings (split/join, trimming, decimal integers, lexicographic order), index filters, `Option`/`Result` |

## How the model is read

- **Sequential steps.** Every `Task { }` body of the client becomes its own method call. Concurrency is not modelled.
  - `isLoading` and `isProcessingQueue` are explicit fields, and their guards are part of the contracts.
  - A method that would start a background refill returns `refillRequested`. The caller runs `BackgroundRefill` next.
  - The retry-queue drain is `ProcessPendingActions`, which calls `Drain`, which calls `Step`, which calls `Attempt`. Each step states how far the drain got.
- **The network is a `World`.** It holds one reply script per kind of call: mutations, profile creation, recommendations, profile, movie lookup and personas. Each call consumes the next reply, and an exhausted script behaves as a transport failure.
  - A log records every call that reached the wire. The set of user ids that cannot be put into a URL stands for `addingPercentEncoding` failing.
  - `UUID()` is the counter `nextId`, and `Date()` is the stamp `now`.
- **Python values are a `Json` datatype.** Python operations return a `Result` with the exception they would raise. `get`, `in`, `str`, `int`, `strip` and `split` are written out with Python's semantics for the cases the code can meet.
- **Results of the backend.** A handler outcome is a value, an HTTP status, or "outside the model" for operations the model does not define, such as `str()` of a float.
- **The index scripts.** `encoding.py` and `fetch_diverse_movies.py` are modelled as functions of their inputs: the parsed files, and the TMDB calls as given functions.
  - The preparation loop is a method over an `array`, because it rewrites each item's `backdrop_path` in place.
  - The de-duplication loop is a method proved equal to a reference function.

### Where the code and the written design differ

The model follows the code.

- The retry queue lives in memory only. Nothing persists it across launches.
- List membership on the client is by the movie's local `UUID`, not by its backend id. Two fetched copies of the same backend movie are different list entries.
- Genre tokens are trimmed with Swift's `.whitespaces` set: spaces and tabs, not newlines. Python's `strip()` on the backend trims all ASCII whitespace.
- Subtitles fall back to different texts when a DTO has no genres: "Recommended" for recommendations, "Movie" for movies hydrated from the profile.
- A fresh load (not a refill) never asks for a refill. Only paging and live refills check the low-buffer threshold.
- Every converted movie gets the conversion time as `dateWatched`, including movies that were never watched.
- The profile that `/encode` writes files the onboarding ids under `history`, but the list updates read `data`. Loading that profile therefore gives six empty lists (`ReccApi.EncodedProfileLoads`).

## Model

| member | source | states |
|---|---|---|
| PendingQueue.ApiString | Flicks/Flicks/UserState.swift:230-236 | a rating goes on the wire as one of "like", "neutral", "dislike" |
| PendingQueue.ParseRating | Flicks/Flicks/UserState.swift:230-236 | exactly the three wire strings name a rating |
| PendingQueue.ApiStringRoundTrip | Flicks/Flicks/UserState.swift:227-236 | parsing a rating's wire string gives the rating back, so distinct ratings never share a wire string |
| PendingQueue.PendingActionsQueue.constructor | Flicks/Flicks/UserState.swift:445-446 | a new queue holds no actions |
| PendingQueue.PendingActionsQueue.Enqueue | Flicks/Flicks/UserState.swift:448-450 | the action joins at the tail; everything already queued stays in order in front of it |
| PendingQueue.PendingActionsQueue.Peek | Flicks/Flicks/UserState.swift:452-454 | none exactly when the queue is empty, otherwise the head, without removing it |
| PendingQueue.PendingActionsQueue.RemoveFirst | Flicks/Flicks/UserState.swift:456-460 | drops exactly the head and keeps the rest in order; on an empty queue it does nothing |
| PendingQueue.PendingActionsQueue.IsEmpty | Flicks/Flicks/UserState.swift:462-464 | true exactly when no action is queued |
| Environment.ActionCall | Flicks/Flicks/UserState.swift:64-85 | every queued action is retried through one of the four mutation calls (rate, watchlist add, watchlist remove, sync shown) |
| Environment.World.constructor | Flicks/Flicks/APIService.swift:30-34 | the gateway starts with an empty call log and the given reply scripts |
| Environment.World.Mutate | Flicks/Flicks/APIService.swift:135-209 | a mutation whose URL cannot be built fails with `invalidURL` and sends nothing; otherwise the call is logged, one reply is used, and the result is the status classification of that reply |
| Environment.World.CreateUserProfile | Flicks/Flicks/APIService.swift:36-62 | the create request is logged, one reply is used, and the outcome is the error-wrapping classification of that reply |
| Environment.World.GetRecommendations | Flicks/Flicks/APIService.swift:103-117 | the result is the conversion of the next reply's DTOs; local ids are drawn fresh, one per DTO; nothing is sent when the user id cannot be encoded |
| Environment.World.FetchUserProfile | Flicks/Flicks/APIService.swift:119-133 | the profile is the next reply's body under the status classification; nothing is sent when the user id cannot be encoded |
| Environment.World.FetchMovies | Flicks/Flicks/UserState.swift:119 | one lookup for the requested id set is logged and answered by the next movie reply |
| Environment.World.FetchPersonas | Flicks/Flicks/APIService.swift:211-224 | one personas call is logged and its result is the next reply under the status classification |
| Environment.World.FreshIds | Flicks/Flicks/APIService.swift:107-115 | a block of new local ids is reserved, none of them handed out before |
| Environment.MutationsFilter | Flicks/Flicks/UserState.swift:51-100 | a call is among a log's mutations exactly when it is in the log and is one of the four mutating calls |
| Movies.RemoveId | Flicks/Flicks/UserState.swift:216 | `removeAll` by local id keeps exactly the entries with another id |
| Movies.RemoveIdRemovesAll | Flicks/Flicks/UserState.swift:269-272 | after `removeAll`, no entry with that local id is left |
| Movies.RemoveIdAppend | Flicks/Flicks/UserState.swift:216 | removal works piece by piece over a concatenation, so the survivors keep their order |
| Movies.RemoveIdAbsent | Flicks/Flicks/UserState.swift:216 | removing an id that is not there leaves the list as it is |
| Movies.RemoveThenAppendOnce | Flicks/Flicks/UserState.swift:247-258 | removing a movie's id and then appending the movie leaves that id exactly once |
| Movies.RemoveIdKeepsUnique | Flicks/Flicks/UserState.swift:216 | removal keeps a list without duplicate local ids free of duplicates |
| Movies.AppendFreshKeepsUnique | Flicks/Flicks/UserState.swift:201-204 | appending a movie whose id is absent keeps the list free of duplicate local ids |
| Movies.WithoutKnown | Flicks/Flicks/UserState.swift:327 | the refill filter keeps exactly the fetched movies whose backend id is not already known |
| Movies.WithoutKnownAppend | Flicks/Flicks/UserState.swift:327 | the filter works piece by piece over a concatenation, so it keeps the fetched order |
| Movies.Prefix | Flicks/Flicks/UserState.swift:352 | `prefix(n)` has min(n, count) movies and is a prefix of the list |
| ApiService.StatusError | Flicks/Flicks/APIService.swift:89-92 | an error exactly when there is an HTTP status outside 200...299, and that error is `serverError` carrying the status |
| ApiService.Receive | Flicks/Flicks/APIService.swift:80-99 | `invalidURL` without a URL; transport errors pass through; a non-2xx status is `serverError(status)`; success exactly when the reply is 2xx (or not HTTP) and its body decodes, and then the value is that body |
| ApiService.Send | Flicks/Flicks/APIService.swift:135-153 | a mutation succeeds exactly when the URL exists, the server replied and the status is not an error; otherwise `invalidURL`, the transport error or `serverError(status)` |
| ApiService.CreateUserProfile | Flicks/Flicks/APIService.swift:36-62 | a body-encoding failure is `decodingError`; a transport failure is `networkError`; a non-2xx status is `networkError` wrapping `serverError(status)`; success exactly for an encodable body answered with a non-error status |
| ApiService.CreateUserProfileWrapsErrors | Flicks/Flicks/APIService.swift:52-61 | every failure of profile creation is a `decodingError` or a `networkError`, never a bare `serverError`; a non-2xx status is the plain classification's `serverError`, wrapped |
| ApiService.UrlShapes | Flicks/Flicks/APIService.swift:36-212 | the eight endpoint URLs are the base URL followed by /encode, /onboarding/personas, /users/{id}, /users/{id}/recommendations?language=en, /users/{id}/watchlist, /users/{id}/ratings, /users/{id}/sync and /users/{id}/watchlist/{movieId} |
| ApiService.EncodeUrlShape | Flicks/Flicks/APIService.swift:37 | the profile-creation URL is the base URL + "/encode" |
| ApiService.PersonasUrlShape | Flicks/Flicks/APIService.swift:212 | the personas URL is the base URL + "/onboarding/personas" |
| ApiService.ProfileUrlShape | Flicks/Flicks/APIService.swift:121 | the profile URL is the base URL + "/users/" + the encoded id |
| ApiService.UserUrlShape | Flicks/Flicks/APIService.swift:82 | a per-user endpoint URL is base + "/users/" + id + "/" + its tail |
| ApiService.ItemUrlShape | Flicks/Flicks/APIService.swift:157 | the watchlist-item URL is base + "/users/" + id + "/watchlist/" + the movie id |
| ApiService.ParseUrlOfUrl | Flicks/Flicks/APIService.swift:36-212 | for a user id without '/', the URL determines the endpoint and all of its arguments, so no two calls share a URL |
| ApiService.TmdbIdList | Flicks/Flicks/APIService.swift:69 | `movie_ids` are the movies' backend ids, in order |
| ApiService.CreateProfileRequest | Flicks/Flicks/APIService.swift:65-73 | the request passes name and genres through, lists the movies' backend ids in order, and sends the given personas |
| ApiService.UpdateProfileRequest | Flicks/Flicks/APIService.swift:76-78 | an update is a create request with an empty personas list |
| ApiService.ToMovieRecovers | Flicks/Flicks/APIService.swift:106-115 | a converted movie has the caller's local id and stamp (added and watched), the record's backend id (`Int(movie_id) ?? 0`) and title, no friends, the image base + backdrop path (so the path reads back off the URL), and the genres joined by " · " as subtitle, or the fallback without genres |
| ApiService.TmdbIdOfPrinted | Flicks/Flicks/APIService.swift:108 | `Int(movie_id)` recovers every 64-bit backend id from its decimal text |
| ApiService.ConvertDtos | Flicks/Flicks/APIService.swift:105-116 | the k-th movie is the conversion of the k-th DTO with a non-empty backdrop, with local id first + its position among all DTOs |
| ApiService.ConvertDtosUnique | Flicks/Flicks/APIService.swift:105-116 | the converted movies have distinct local ids, all drawn from the reserved block |
| ApiService.ConvertDtosKeepsExactly | Flicks/Flicks/APIService.swift:106 | a DTO yields a movie exactly when its backdrop path is present and non-empty |
| ApiService.ReceiveMoviesFresh | Flicks/Flicks/APIService.swift:103-117 | a recommendations fetch fails exactly as its exchange does, with the same error; its movies are at most one per record, with distinct local ids from the reserved block |
| Genres.TokenSet | Flicks/Flicks/UserState.swift:280-286 | no genre token is empty |
| Genres.TokenSetMembers | Flicks/Flicks/UserState.swift:280-286 | a string is a token exactly when it is non-empty and is the trimmed form of some piece of the subtitle |
| Genres.LikedGenres | Flicks/Flicks/UserState.swift:278-287 | no collected genre is empty |
| Genres.LikedGenresMembers | Flicks/Flicks/UserState.swift:278-287 | a genre is collected exactly when it is a token of some liked movie's subtitle |
| Genres.LikedGenresBySet | Flicks/Flicks/UserState.swift:279 | the collected genres depend only on which movies are liked, not on their order or repetition |
| Genres.SortedListUnique | Flicks/Flicks/UserState.swift:288 | a set has only one strictly ascending listing, so the genre list is determined by the genre set |
| Genres.EmptyListing | Flicks/Flicks/UserState.swift:288 | the listing is empty exactly when the set is |
| Genres.CollectGenres | Flicks/Flicks/UserState.swift:278-287 | the nested loop collects exactly the tokens of all liked movies |
| Genres.AddTokens | Flicks/Flicks/UserState.swift:281-286 | the inner loop adds exactly one subtitle's tokens to the set |
| Genres.SortNames | Flicks/Flicks/UserState.swift:288 | `Array(set).sorted()` is a strictly ascending list holding each member of the set once |
| Feed.MapColor | Flicks/Flicks/UserState.swift:184-195 | gray exactly for names other than red, purple, blue, pink, orange, green, yellow |
| Feed.MapColorOfName | Flicks/Flicks/UserState.swift:184-195 | each of the eight colours comes back from its own name, so the mapping is one-to-one on those names |
| Feed.ToPersonas | Flicks/Flicks/UserState.swift:170-178 | one persona per DTO, in order, with its title, description, icon and image, and its mapped colour |
| Feed.PageKeepsPrefix | Flicks/Flicks/UserState.swift:429-439 | paging keeps the window a prefix of the buffer, keeps what was shown, and grows it to min(buffer size, window + 10) |
| Feed.PagingReachesEnd | Flicks/Flicks/UserState.swift:402-442 | k pages show the whole buffer once it holds at most 10·k movies beyond the window |
| Feed.RefillIsFresh | Flicks/Flicks/UserState.swift:321-327 | a refill adds no movie whose backend id is known, and drops none whose id is not |
| Feed.AfterFetchKeepsPrefix | Flicks/Flicks/UserState.swift:307-358 | every fetch outcome (fresh load, refill, empty refill, failure) keeps the window a prefix of the buffer |
| Feed.RefillOnlyAddsNew | Flicks/Flicks/UserState.swift:316-342 | a refill only extends the buffer and the window, the window by at most one page, and each added movie was fetched and has an unknown backend id |
| Feed.RefillsDueClosedForm | Flicks/Flicks/UserState.swift:68-69 | counting ratings from a to b triggers b/3 − a/3 refills, one per multiple of 3 crossed |
| Feed.FreshLoad | Flicks/Flicks/UserState.swift:307-354 | a fresh load does not depend on the known ids; when the reply is an error the feed and the id counter stay; otherwise the buffer is the conversion of the records ("Recommended" fallback), the window is its first page, and the movies carry distinct new local ids from the counter |
| Feed.FreshIgnoresKnown | Flicks/Flicks/UserState.swift:344-353 | a fresh load gives the same outcome whatever ids are known |
| Feed.RefillRunGrows | Flicks/Flicks/UserState.swift:66-72 | n live refills in a row keep the window a prefix of the buffer, only extend the buffer and the window, add no movie whose backend id is in history, the watchlist or the shown set, consume one reply each when they reach the wire, and change nothing while a load is under way or the id cannot be encoded |
| Feed.RunAsksExists | Flicks/Flicks/UserState.swift:66-72 | a drain's refills request a background refill exactly when one of them, from the feed it found, asks for it |
| Feed.RefillAsksMeans | Flicks/Flicks/UserState.swift:334-342 | a refill that asks for more ran with no load under way and a URL, appended movies to the buffer and left fewer than 15 of them beyond the window it found, the test `loadMoreMovies` makes before it pages |
| Feed.DrainLogSnoc | Flicks/Flicks/UserState.swift:60-88 | confirming one more action appends its call and, at a multiple of 3 rated actions, one recommendations call |
| Feed.DrainLogMutations | Flicks/Flicks/UserState.swift:60-88 | the mutation calls of a drain are exactly the confirmed actions' calls, in queue order |
| Feed.DrainLogFetches | Flicks/Flicks/UserState.swift:66-72 | a live drain makes one recommendations call per multiple of 3 crossed by its confirmed ratings, and none when refills cannot run |
| Feed.MutationsAppend | Flicks/Flicks/UserState.swift:60-88 | the mutations of two call logs in a row are those of the first followed by those of the second |
| Feed.FetchesAppend | Flicks/Flicks/UserState.swift:66-72 | the recommendations calls of two logs in a row add up |
| Feed.RefillCallsNoMutation | Flicks/Flicks/UserState.swift:66-72 | a refill after a confirmed rating sends no mutation, only recommendations calls |
| Feed.DrainRecordMeans | Flicks/Flicks/UserState.swift:51-100 | what the drain's record says: the mutations sent are the attempted actions' calls in order, the refills made match the rating count, and the feed only grows by movies unknown to history, watchlist and the shown set, staying put when refills cannot run |
| Feed.HydrationSendsNoMutation | Flicks/Flicks/UserState.swift:102-149 | loading and hydrating the profile sends no mutation |
| Feed.MovieMap | Flicks/Flicks/UserState.swift:122-135 | every key maps to a converted movie with that backend id, and every converted movie's id is a key |
| Feed.MovieMapFinds | Flicks/Flicks/UserState.swift:122-135 | with distinct backend ids, each movie is what the map holds under its own id |
| Feed.HydrateSpec | Flicks/Flicks/UserState.swift:138-142 | a hydrated list holds, in profile order, the map's movie for exactly those profile ids the map knows |
| Feed.HydrateKeeps | Flicks/Flicks/UserState.swift:138-142 | a profile id survives hydration exactly when the map has it |
| Feed.ConvertedDistinct | Flicks/Flicks/UserState.swift:122-124 | a lookup reply without two usable records for one backend id converts to movies with distinct backend ids |
| Feed.ListSet | Flicks/Flicks/UserState.swift:375 | `Array(set)` lists every member of the set and nothing else |
| Feed.AddOnceAdds | Flicks/Flicks/UserState.swift:241-245 | an append-if-absent leaves the id present, keeps a duplicate-free list duplicate-free, and leaves the id exactly once if it was there at most once |
| Feed.RefileOnce | Flicks/Flicks/UserState.swift:247-258 | after `removeAll` and the rating's append, the movie is in the chosen list once and in the others not at all |
| Feed.ExclusiveAfterRating | Flicks/Flicks/UserState.swift:247-258 | rating keeps the three rating lists pairwise disjoint by local id |
| Feed.ExclusiveAfterRemoval | Flicks/Flicks/UserState.swift:268-272 | removal from history keeps the three rating lists pairwise disjoint by local id |
| Feed.UserState.constructor | Flicks/Flicks/UserState.swift:5-32 | all lists, the buffer, the shown set and the queue start empty; the counters are 0 and both flags are off; the window is a prefix of the buffer and the genres match the liked movies |
| Feed.UserState.BufferCount | Flicks/Flicks/UserState.swift:20-22 | the count is the buffered movies beyond the window, never negative |
| Feed.UserState.CountsAddUp | Flicks/Flicks/UserState.swift:16-22 | window count plus buffer count is the buffer size |
| Feed.UserState.AddToWatchlist | Flicks/Flicks/UserState.swift:199-212 | the watchlist gains the stamped movie only if its local id is absent, so the id ends up present and the list keeps no duplicates; exactly one `watchlistAdd` is queued even when the list did not change; nothing else changes |
| Feed.UserState.RemoveFromWatchlist | Flicks/Flicks/UserState.swift:214-223 | every entry with the local id goes, the rest keep their order; exactly one `watchlistRemove` is queued; nothing else changes |
| Feed.UserState.RebuildGenres | Flicks/Flicks/UserState.swift:277-289 | the genre list becomes the ascending, duplicate-free list of non-empty trimmed " · " tokens of the liked movies; nothing else changes |
| Feed.UserState.AddToHistory | Flicks/Flicks/UserState.swift:239-266 | history gains the stamped movie only if its local id is absent; the movie ends up exactly once in the rating list matching the rating and in neither other list; exclusivity and duplicate-free history are kept; the genres are rebuilt; exactly one `rate` with the rating's wire string is queued |
| Feed.UserState.FileRating | Flicks/Flicks/UserState.swift:241-258 | the list updates of a rating: append-if-absent to history, remove-then-append into the matching rating list only |
| Feed.UserState.RemoveFromHistory | Flicks/Flicks/UserState.swift:268-275 | every entry with the local id leaves history and all three rating lists; exclusivity is kept; the genres are rebuilt; nothing is queued and the watchlist stays |
| Feed.UserState.RemoveEverywhere | Flicks/Flicks/UserState.swift:269-272 | the four `removeAll`s, each keeping the other entries in order, and nothing else |
| Feed.UserState.FlushShownMovies | Flicks/Flicks/UserState.swift:374-385 | the set is emptied; a non-empty set is queued as one `syncShown` holding exactly its ids; an empty one queues nothing |
| Feed.UserState.MarkAsShown | Flicks/Flicks/UserState.swift:360-372 | re-marking a tracked id changes nothing; a first sighting counts once and is tracked; at three tracked ids the set is emptied into exactly one `syncShown` of those ids |
| Feed.UserState.LoadMoreMovies | Flicks/Flicks/UserState.swift:402-442 | the next page min(10, remaining) is appended to the window with the buffer unchanged; a refill is requested exactly when fewer than 15 buffered movies lie beyond the old window |
| Feed.UserState.ApplyFetch | Flicks/Flicks/UserState.swift:316-354 | the feed becomes the fetch outcome: a fresh load replaces the buffer and shows its first 10; a refill appends the unknown movies and pages; an empty refill or a failure changes nothing |
| Feed.UserState.FetchRecommendations | Flicks/Flicks/UserState.swift:307-358 | a call while loading changes nothing and sends nothing; otherwise the feed, the recommendations script and the id counter become `Fetched` of the old ones: the next reply is taken and converted, and the feed becomes its outcome against the ids known at the call; a refill is requested exactly when the paging step finds the buffer low; exactly one recommendations call is logged when the user id can be encoded; lists, shown set, queue and the other scripts are untouched |
| Feed.UserState.BackgroundRefill | Flicks/Flicks/UserState.swift:412-425 | a non-empty shown set is first queued as one `syncShown` of exactly its ids; then a live refill runs against the lists and window with the shown set already empty, so the feed is `Fetched` of the old feed; one recommendations call is logged unless a load is under way or the id cannot be encoded; no mutation is sent and the lists are untouched |
| Feed.UserState.Confirm | Flicks/Flicks/UserState.swift:66-88 | after a confirmed call the head leaves the queue; a rating raises the session count by one; a live refill runs exactly when that count becomes a multiple of 3, and then the feed is `Fetched` of the old feed and one recommendations call is logged (no call while a load is under way or when the id cannot be encoded); the background refill is requested exactly when that refill is a live load that brought new movies and left fewer than 15 beyond the window (`RefillDue`), never without a refill; no mutation is sent |
| Feed.UserState.ProcessPendingActions | Flicks/Flicks/UserState.swift:51-100 | while a drain is running a new one does nothing; otherwise the queue is retried head first, each action removed only after its call succeeds; the first failure stops the drain with the failed action and all behind it still queued; only confirmed ratings count; the call log is the old log followed by `DrainLog` of the confirmed actions (each action call, then a recommendations call at every multiple of 3) and the failed call, the feed is `RefillRun` of the old feed, one live refill per multiple of 3, and a background refill is requested exactly when one of those refills asks for it (`RunAsks`) |
| Feed.UserState.Drain | Flicks/Flicks/UserState.swift:60-98 | how the drain ends: the confirmed actions are a prefix of the old queue, each answered with success, in order; either the queue is empty or the remaining suffix starts at the failed action; the replies used match exactly the attempted actions; the log is `DrainLog` of the confirmed actions plus the failed call, the feed is `RefillRun` of the feed at the start with one refill per multiple of 3 crossed, and the refill request is `RunAsks` of those refills |
| Feed.UserState.Step | Flicks/Flicks/UserState.swift:61-94 | one retry either extends the confirmed prefix by the head, with its call, its rating count and its refill recorded in the log and the feed, or ends the drain at it with the failed call logged; it requests a background refill exactly when it confirmed a rating whose refill asks for one (`RefillAsks` of the refills so far) |
| Feed.UserState.Advance | Flicks/Flicks/UserState.swift:66-88 | after a confirmed call the drain's record moves on by one: the head leaves the queue, the log gains the refill call the rating count calls for, the feed gains that refill, and the refill request is that refill's `RefillAsks` |
| Feed.UserState.Attempt | Flicks/Flicks/UserState.swift:63-85 | the head's mutation call is made, and succeeds exactly when its reply is a non-error answer; an attempted call is logged and uses one reply; the feed's scripts and the id counter are untouched |
| Feed.UserState.ApplyProfile | Flicks/Flicks/UserState.swift:138-144 | the five lists are rebuilt from the profile through the movie map, then the genres |
| Feed.UserState.SetLists | Flicks/Flicks/UserState.swift:138-142 | each of the five lists is the profile's id list hydrated through the map |
| Feed.UserState.LoadProfileMovies | Flicks/Flicks/UserState.swift:108-149 | with no ids nothing is fetched; otherwise one lookup for the union of the five id lists is made, a failure keeps the lists, and a success rebuilds them from the converted movies, spending one local id per received record; the recommendations script is untouched |
| Feed.UserState.HydrateProfile | Flicks/Flicks/UserState.swift:102-149 | the result says whether the profile arrived; a missing profile, no ids or a failed lookup keep the lists; otherwise the lists are hydrated ("Movie" subtitle fallback) and the genres rebuilt; the calls made are exactly the profile request and, when the profile names movies, one lookup (`HydrationCalls`); the id counter advances by the records received (`HydrationIds`); no mutation is sent |
| Feed.UserState.FetchUserProfile | Flicks/Flicks/UserState.swift:102-165 | the result says whether the profile arrived, and the lists are hydrated as in `HydrateProfile`; a window already showing movies is left as it is; an empty window gets a fresh load on the success and the failure path alike, `Fetched` of the feed with the hydrated records' ids already spent, with one recommendations call after the hydration calls; no mutation is sent and the shown set is untouched |
| Feed.UserState.LoadIfEmpty | Flicks/Flicks/UserState.swift:151-162 | an empty window gets a fresh load, `Fetched` of the feed as it is, and a window already showing movies is left alone; the lists and the shown set are untouched and no mutation is sent |
| Feed.UserState.FetchPersonas | Flicks/Flicks/UserState.swift:167-182 | the personas become the received ones, converted; a failure keeps the old ones; nothing else changes |
| Feed.UserState.SyncUserProfile | Flicks/Flicks/UserState.swift:293-305 | the first call is one create request carrying the user id, the genres, the history's backend ids and the chosen personas; a failed upload leaves the feed untouched and makes no further call; a successful one is followed by a fresh load, `Fetched` of the old feed, and its one recommendations call; the lists are untouched |
| UserProfile.UserText | recc-engine/user.py:12-17 | "" exactly when both lists are empty; otherwise "Genres: " + comma-joined genres and/or "Keywords: " + comma-joined keywords, joined by " \| " |
| UserProfile.JoinArg | recc-engine/user.py:14-16 | `", ".join` accepts a list of strings (those strings, in order) or a string (its characters); a list holding a non-string and a non-iterable raise TypeError; an empty dict joins nothing and a non-empty one is outside the model |
| UserProfile.PartArg | recc-engine/user.py:10-11 | a missing key reads as []; a profile that is not a dict raises AttributeError |
| UserProfile.BuildUserText | recc-engine/user.py:9-17 | the text is `UserText` of the profile's genres and keywords; it succeeds exactly when both parts can be joined; a profile with neither key gives "" |
| UserProfile.UserTextStarts | recc-engine/user.py:13-17 | a text with genres starts with "Genres: "; without genres but with keywords it starts with "Keywords: " |
| UserProfile.FillKeys | recc-engine/user.py:44-48 | existing keys keep their values, every one of the six list keys is present, missing ones are [], and no other key appears |
| UserProfile.FillMissingKeys | recc-engine/user.py:45-48 | the loop over the required keys computes exactly the filled map |
| UserProfile.Normalise | recc-engine/user.py:33-50 | normalisation succeeds exactly for a dict whose `data`, if present and not a dict, already contains the six keys; a failure is TypeError; the result has `data` |
| UserProfile.LoadUserProfile | recc-engine/user.py:20-50 | an empty list or a non-list, non-dict file raises ValueError; a non-empty list yields its normalised first element; a dict yields itself normalised |
| UserProfile.NormaliseKeeps | recc-engine/user.py:33-50 | normalisation adds only `data`, keeps every other key, fills a missing `data` with six empty lists, and merges missing keys into a present one |
| UserProfile.NormaliseFills | recc-engine/user.py:34-48 | a normalised dict `data` has all six list keys |
| UserProfile.NormaliseIdempotent | recc-engine/user.py:33-50 | loading a loaded profile again changes nothing |
| UserProfile.SaveOutput | recc-engine/user.py:59-69 | the profile is written bare only when the existing file parsed as a dict; otherwise it is wrapped in a list |
| UserProfile.SaveThenLoad | recc-engine/user.py:52-72 | a normalised profile saved over any existing file loads back unchanged |
| UserProfile.Truncate | recc-engine/user.py:79 | `int()` of a float truncates toward zero |
| UserProfile.Coerce | recc-engine/user.py:78-81 | the id conversion fails exactly for None, lists and dicts; it always yields a number or a string, and a string that is not a decimal integer is kept as it is |
| UserProfile.CoerceDecimal | recc-engine/user.py:78-81 | the decimal text of an integer becomes that integer |
| UserProfile.RemoveFirstOcc | recc-engine/user.py:93-96 | `list.remove` deletes exactly one occurrence of a present id, and nothing when it is absent |
| UserProfile.RemoveFirstCount | recc-engine/user.py:93-96 | `list.remove` lowers the id's count by one, or leaves a zero count at zero |
| UserProfile.KeyName | recc-engine/user.py:45 | each list slot names one of the six required keys |
| UserProfile.Slots.Set | recc-engine/user.py:83-144 | writing one list leaves the other five as they were |
| UserProfile.Added | recc-engine/user.py:84-85 | after an append-if-absent the id is in that list, and the other lists are unchanged |
| UserProfile.Removed | recc-engine/user.py:93-94 | a remove-if-present lowers the id's count in that list by one, or keeps a zero count, and leaves the other lists unchanged |
| UserProfile.AddTo | recc-engine/user.py:84-85 | on a list the update is the append-if-absent; on anything else it fails or leaves the lists as they were; no other list changes |
| UserProfile.RemoveFrom | recc-engine/user.py:93-94 | on a list the update is the remove-if-present; on anything else it fails or leaves the lists as they were; no other list changes |
| UserProfile.Apply | recc-engine/user.py:83-144 | an update changes only the lists its action names (a rating its own list, history, shown and the two other rating lists; never the watchlist), never raises on six lists and keeps them lists; an unknown action changes nothing |
| UserProfile.ParseAction | recc-engine/user.py:83-144 | a rating action always targets one of the three rating lists |
| UserProfile.ParseActionNames | recc-engine/user.py:83-144 | the seven action names select their branches, and any other name (such as "like") is unknown |
| UserProfile.FirstConflict | recc-engine/user.py:92-96 | each rating's first conflicting list is another rating list |
| UserProfile.SecondConflict | recc-engine/user.py:107-111 | each rating's second conflicting list is the third rating list |
| UserProfile.SlotsOf | recc-engine/user.py:76 | a `data` dict holding all six keys has its six lists read |
| UserProfile.WithSlots | recc-engine/user.py:76-146 | writing the lists back adds only the six keys and keeps every other key of `data` |
| UserProfile.UpdateData | recc-engine/user.py:83-144 | an unknown action leaves `data` as it is; a known action on a non-dict `data` raises TypeError, and on a `data` missing a list key raises KeyError; otherwise it raises exactly what `Apply` to the six lists raises, and on success the six lists read back from the new `data` are `Apply`'s; every non-list key is kept |
| UserProfile.UpdateUserData | recc-engine/user.py:74-147 | a failed load or id coercion propagates its error; otherwise the update of the loaded `data` decides: its error is raised, or the returned profile is the loaded one with `data` replaced by the updated value; the written file is the save format of that profile, and an unknown action returns the loaded profile |
| UserProfile.Rated | recc-engine/user.py:83-126 | a rating keeps all six slots lists |
| UserProfile.RatingSucceeds | recc-engine/user.py:83-126 | on a data object of six lists a rating never raises |
| UserProfile.RatingLands | recc-engine/user.py:83-126 | after a rating the id is in the rated list, in history and in shown, and the watchlist is untouched |
| UserProfile.RatingUpdatesProfile | recc-engine/user.py:74-147 | a rating of a loaded profile whose six entries are lists succeeds; the returned `data` holds the `Rated` lists, so the id is in the rated list, history and shown with the watchlist untouched, and loading the written file gives the returned profile back |
| UserProfile.RatingRemovesOne | recc-engine/user.py:92-96 | a rating removes one occurrence of the id from each of the two conflicting lists |
| UserProfile.RatingExclusive | recc-engine/user.py:83-126 | when the conflicting lists held the id at most once, it is absent from both after the rating |
| UserProfile.RatingIdempotentAt | recc-engine/user.py:83-126 | a rating that already holds (in the list, history and shown, absent from the conflicts) changes nothing |
| UserProfile.RemovedAbsent | recc-engine/user.py:142-144 | removing an absent id changes nothing |
| UserProfile.UpdateIdempotent | recc-engine/user.py:83-145 | applying the same id and action twice gives the same lists as once, given no earlier duplicates in the lists an action removes from |
| UserProfile.RatingNotIdempotentWithDuplicates | recc-engine/user.py:93-94 | with two copies of the id in a conflicting list, rating twice differs from rating once, because `remove` drops just one copy |
| UserProfile.WatchlistFrame | recc-engine/user.py:128-130 | "watchlist" adds the id to the watchlist and touches no other list |
| UserProfile.RemoveWatchlistFrame | recc-engine/user.py:142-144 | "remove_watchlist" removes one occurrence from the watchlist and touches no other list |
| UserProfile.HistoryFrame | recc-engine/user.py:132-136 | "history" adds the id to history and shown and touches no other list |
| UserProfile.ShownFrame | recc-engine/user.py:138-140 | "shown" adds the id to shown and touches no other list |
| UserProfile.FetchK | recc-engine/user.py:193 | the pool size is max(150, 2·top_k) |
| UserProfile.WhereFilter | recc-engine/user.py:182-189 | no filter without genres; one `is_{genre}` condition for one genre; an `$or` object for several |
| UserProfile.ConditionGenreOf | recc-engine/user.py:185 | the condition for a genre names that genre |
| UserProfile.ConditionGenresOf | recc-engine/user.py:185 | the list of conditions names the genres in order |
| UserProfile.WhereFilterGenres | recc-engine/user.py:182-189 | the filter determines the genre list it was built from |
| UserProfile.Head | recc-engine/user.py:205-208 | `xs[:n]` with Python's slice rules, negative `n` included |
| UserProfile.Truncated | recc-engine/user.py:202-209 | the four lists are cut to at most top_k entries, stay aligned, and each is a prefix of the query's list |
| UserProfile.Chosen | recc-engine/user.py:221-230 | the chosen positions are positions of the query's results |
| UserProfile.Picked | recc-engine/user.py:221-227 | picking positions keeps the four lists aligned |
| UserProfile.ExcludeSet | recc-engine/user.py:212 | the exclude set holds exactly the string forms of the excluded ids |
| UserProfile.ExcludingProperties | recc-engine/user.py:211-232 | the filtered results are aligned, contain no excluded id, number min(top_k, non-excluded hits) for a positive top_k (and at most one otherwise, since the `break` test follows the append), and each entry's distance, metadata and document come from the same hit |
| UserProfile.SearchQuery | recc-engine/user.py:193-200 | the query asks for the pool size and uses the genre filter |
| UserProfile.ScanStep | recc-engine/user.py:221-230 | one turn of the exclusion loop appends a hit exactly when its id is not excluded |
| UserProfile.SearchMovies | recc-engine/user.py:178-232 | with no excluded ids the results are truncated to top_k; otherwise they are the exclusion-filtered results |
| UserProfile.ScanExcluding | recc-engine/user.py:211-232 | the loop with its early `break` computes exactly the exclusion-filtered results |
| UserProfile.ExcludingStops | recc-engine/user.py:229-230 | the `break` fires at the first position where top_k hits are kept, and what is kept then is the chosen list |
| UserProfile.ExcludingStopsAtTop | recc-engine/user.py:229-230 | stopping there keeps exactly the first top_k of all non-excluded hits |
| UserProfile.ExcludingRuns | recc-engine/user.py:221-230 | a loop that never breaks keeps exactly the chosen list |
| ReccApi.NamesIn | recc-engine/app.py:62 | the comprehension succeeds exactly when every entry supports `in`; it yields, in order, the `name` of each entry that has one |
| ReccApi.NamesOf | recc-engine/app.py:59-62 | a non-dict response raises AttributeError; a response without keywords contributes nothing |
| ReccApi.HashablePrefix | recc-engine/app.py:64-65 | the set holds only hashable names of the list, and all of them when all are hashable |
| ReccApi.Contribution | recc-engine/app.py:57-67 | a movie contributes only hashable names, and nothing when its lookup raises |
| ReccApi.KeywordUnionSound | recc-engine/app.py:54-69 | every keyword in the profile was contributed by one of the movies |
| ReccApi.KeywordUnionComplete | recc-engine/app.py:54-69 | every keyword a movie contributes is in the profile |
| ReccApi.NamesOfWellFormed | recc-engine/app.py:59-65 | for keyword entries that are dicts with string names, the contribution is exactly the names |
| ReccApi.ContributionComplete | recc-engine/app.py:59-65 | every named entry's name is contributed |
| ReccApi.ContributionSound | recc-engine/app.py:59-65 | every contributed keyword is the name of one of the entries |
| ReccApi.CollectKeywords | recc-engine/app.py:54-69 | the loop over the movie ids computes exactly the union of their contributions |
| ReccApi.EncodeUser | recc-engine/app.py:41-69 | the profile passes name and genres through, likes the given ids, has seen a copy of them, dislikes and watchlists nothing, and holds the keyword union |
| ReccApi.IntArr | recc-engine/app.py:45 | the id list is stored as the same integers in order |
| ReccApi.EncodedProfileLoads | recc-engine/app.py:79-82 | the stored profile's search text is `UserText` of its genres and keywords, and loading it adds only an empty `data` object with the six lists |
| ReccApi.Lift | recc-engine/app.py:177-181 | any other exception becomes a 500; a value hanging on a dict's key order is outside the model |
| ReccApi.DbGenres | recc-engine/app.py:114-119 | with genres in the query, the stored genres are not read |
| ReccApi.FileGenres | recc-engine/app.py:120-137 | a missing profile file is exactly the 404; every other failure is a 500; a value means the profile loaded and its text could be built, and it is [] with query genres or the profile's `genres` otherwise |
| ReccApi.StoredGenres | recc-engine/app.py:105-137 | a 404 exactly when the file is missing and the database has no embedding or its payload raised ValueError; other errors are 500s; with an embedding, query genres give [] and readable stored genres are used |
| ReccApi.Override | recc-engine/app.py:140-141 | the override has one stripped token per comma-separated piece, in order |
| ReccApi.OverrideStripped | recc-engine/app.py:141 | every override token is already stripped |
| ReccApi.OverrideRoundTrip | recc-engine/app.py:140-141 | without whitespace, joining the override tokens with "," gives the query back |
| ReccApi.Chars | recc-engine/app.py:119 | iterating a string yields its characters as strings |
| ReccApi.PyStrs | recc-engine/app.py:119 | a list of strings reads as those strings |
| ReccApi.FilterStrings | recc-engine/app.py:146 | a falsy filter means no genres; a list of strings is used as it is |
| ReccApi.RecommendationQuery | recc-engine/app.py:105-146 | with genres in the query, the search uses the pool size and the override tokens as filter; without them, a stored genre list of strings is the filter as it is and a falsy one means no filter; a 404 or 500 on the way to the stored genres is the answer |
| ReccApi.GenreName | recc-engine/app.py:161-165 | an entry is dropped exactly when it is neither a string nor a dict with "name" |
| ReccApi.NormalGenresKept | recc-engine/app.py:159-165 | the normalised genres are, in order, the names of exactly the usable entries |
| ReccApi.NormalGenresAppend | recc-engine/app.py:159-165 | normalisation works piece by piece over a concatenation, so it keeps order |
| ReccApi.NormalGenresOfStrings | recc-engine/app.py:164-165 | a list of strings is kept as it is |
| ReccApi.NormaliseGenres | recc-engine/app.py:159-165 | the loop computes exactly the normalised genres |
| ReccApi.RawGenreNames | recc-engine/app.py:159-165 | a genres list is normalised as a whole |
| ReccApi.FromPayload | recc-engine/app.py:167-173 | the recommendation carries the hit's id and distance; a present title is copied and a missing one reads "Unknown"; the backdrop path is the payload's string `backdrop_path` or none |
| ReccApi.FromPayloadGenres | recc-engine/app.py:159-173 | with a genres list, the result exists exactly when title and backdrop have the validated types and every kept genre name is a string; its genres are the normalised names in order, and a list of strings is kept as it is |
| ReccApi.RecommendCopies | recc-engine/app.py:155-173 | a hit whose payload text parses to a dict is converted from that dict's fields |
| ReccApi.Recommend | recc-engine/app.py:155-173 | the recommendation carries the hit's id and distance; a payload that is not a dict is a 500 |
| ReccApi.FromPayloadDefaults | recc-engine/app.py:167-173 | a payload with neither title nor backdrop gives title "Unknown" and no backdrop path |
| ReccApi.RecommendDefaults | recc-engine/app.py:155-173 | the same defaults, read through the metadata's JSON payload |
| ReccApi.Prefix | recc-engine/app.py:154 | the first i hits stay aligned |
| ReccApi.RecommendAll | recc-engine/app.py:148-176 | the mapping gives one recommendation per hit, or fails with 500 |
| ReccApi.RecommendAllInOrder | recc-engine/app.py:154-174 | the k-th recommendation carries the k-th hit's id and distance |
| ReccApi.RecommendResults | recc-engine/app.py:148-176 | the loop computes exactly the mapping, stopping at the first failing hit |
| ReccApi.RecommendAllSnoc | recc-engine/app.py:154-174 | one more hit appends its recommendation, or turns the result into its failure |
| ReccApi.PrefixFailureStays | recc-engine/app.py:154-181 | a failure at some hit is the result of the whole mapping |
| ReccApi.GetRecommendations | recc-engine/app.py:97-181 | the handler answers 404 exactly when the profile file is missing and the database gave no embedding or its stored genres raised ValueError; every other error is a 500; a success has one recommendation per truncated hit |
| ReccApi.RecommendationsInOrder | recc-engine/app.py:146-176 | a successful answer has one recommendation per truncated hit, in order, with its id and distance |
| Encoding.TruthyNames | recc-engine/encoding.py:8-11 | the comprehension succeeds exactly for dict entries, and yields the truthy names in order |
| Encoding.Entries | recc-engine/encoding.py:8-10 | a missing key reads as [] and a list as its entries |
| Encoding.NameStrings | recc-engine/encoding.py:15-17 | joining succeeds exactly for string names and keeps them in order |
| Encoding.TextParts | recc-engine/encoding.py:13-19 | at most three parts, none empty; none exactly when all three inputs are empty; genres first, then keywords, then overview |
| Encoding.BuildText | recc-engine/encoding.py:7-20 | an item that is not a dict raises AttributeError |
| Encoding.Labels | recc-engine/encoding.py:8-11 | one label per entry with a truthy name |
| Encoding.NamesUnderWellFormed | recc-engine/encoding.py:8-11 | for dict entries with string names the comprehension yields exactly the labels |
| Encoding.BuildTextOfItem | recc-engine/encoding.py:7-20 | a well-formed item's document is its parts joined with " \| " |
| Encoding.TextEmptyIff | recc-engine/encoding.py:13-20 | the document is empty exactly when genres, keywords and overview are |
| Encoding.TextStartsWithGenres | recc-engine/encoding.py:14-15 | a document with genres starts with "Genres: " |
| Encoding.BackfilledFields | recc-engine/encoding.py:38-39 | only `backdrop_path` can change: a truthy one is kept, otherwise it becomes the poster path (or None) |
| Encoding.BackfillIdempotent | recc-engine/encoding.py:38-39 | backfilling twice is backfilling once |
| Encoding.IdString | recc-engine/encoding.py:41 | the id is `str(id)`: "None" when missing, an integer's decimal text, a string unchanged |
| Encoding.FlagKeys | recc-engine/encoding.py:50-53 | one key "is_" + str(name) per name, in order, when every name has a string form |
| Encoding.FlagKeysMember | recc-engine/encoding.py:50-53 | "is_" + s is a flag exactly when some genre name reads as s |
| Encoding.FlagKeysApart | recc-engine/encoding.py:45-53 | no flag overwrites `payload` or `language` |
| Encoding.SetFlags | recc-engine/encoding.py:50-53 | setting flags adds exactly those keys, each True, and keeps the rest |
| Encoding.Metadata | recc-engine/encoding.py:45-53 | the metadata holds the item's JSON payload, its language ("unknown" by default), and a True flag for each genre with a truthy name |
| Encoding.GenreFlagsExact | recc-engine/encoding.py:50-53 | "is_" + s is flagged exactly when some genre has a truthy name that reads as s |
| Encoding.PrepareOfItem | recc-engine/encoding.py:38-55 | an item that is not a dict raises AttributeError; a prepared item's id and document are those of the backfilled item, its payload is the backfilled item serialised and its language is read from it; an item whose text fails is not prepared |
| Encoding.PrepareAll | recc-engine/encoding.py:36-55 | ids, documents and metadatas stay the same length and index-aligned with the items, each entry being the preparation of its item; every item reached is backfilled in place and the rest are untouched; a failure stops at the failing item |
| Encoding.SteppedPartition | recc-engine/encoding.py:61-62 | batches that start every 5000 items and end at min(start + 5000, total) partition the items |
| Encoding.Batches | recc-engine/encoding.py:58-67 | the batch loop covers 0..total contiguously, in order, with batches of 5000 except possibly the last |
| Encoding.SlicesCover | recc-engine/encoding.py:61-67 | the slices of all batches, concatenated, are the whole list |
| Encoding.SlicesOfChain | recc-engine/encoding.py:61-67 | the first n batches cover exactly the list up to the n-th batch's end |
| DiverseFetch.LoadExistingMovies | recc-engine/fetch_diverse_movies.py:15-25 | the data file wins when it exists, then the seed file, otherwise [] |
| DiverseFetch.DataFileWins | recc-engine/fetch_diverse_movies.py:17-20 | when the data file exists the seed file is never read |
| DiverseFetch.StoredId | recc-engine/fetch_diverse_movies.py:53 | `m["id"]` succeeds exactly for a dict with a hashable id |
| DiverseFetch.StoredIds | recc-engine/fetch_diverse_movies.py:53 | the existing-id set succeeds exactly when every movie has a hashable id, and holds exactly those ids |
| DiverseFetch.ExistingIds | recc-engine/fetch_diverse_movies.py:52-53 | a list of movies gives its id set; a number, None or a bool raises TypeError |
| DiverseFetch.IdsOfComplete | recc-engine/fetch_diverse_movies.py:125 | every kept candidate's id is in the seen set |
| DiverseFetch.IdsOfSound | recc-engine/fetch_diverse_movies.py:125 | every id in the seen set belongs to some kept candidate |
| DiverseFetch.Firsts | recc-engine/fetch_diverse_movies.py:118-125 | the kept positions are strictly increasing positions of the candidates, so the kept list is an in-order subsequence |
| DiverseFetch.FirstsSucceeds | recc-engine/fetch_diverse_movies.py:121-125 | the loop raises nothing exactly when no candidate is a non-dict and no truthy id is unhashable |
| DiverseFetch.FirstsFresh | recc-engine/fetch_diverse_movies.py:123 | every kept candidate has a truthy id that is not an existing id |
| DiverseFetch.FirstsComplete | recc-engine/fetch_diverse_movies.py:121-125 | every truthy, non-existing candidate id is among the kept ids |
| DiverseFetch.FirstsDistinct | recc-engine/fetch_diverse_movies.py:121-125 | no two kept candidates share an id |
| DiverseFetch.FirstsUnique | recc-engine/fetch_diverse_movies.py:118-125 | the kept candidates have pairwise distinct ids, none of them existing |
| DiverseFetch.FirstsFailureStays | recc-engine/fetch_diverse_movies.py:121-125 | an exception at some candidate is the outcome of the whole loop |
| DiverseFetch.ScanStep | recc-engine/fetch_diverse_movies.py:121-125 | one turn of the loop keeps a candidate exactly when its id is truthy, not existing and not seen |
| DiverseFetch.ScanFails | recc-engine/fetch_diverse_movies.py:122-123 | a non-dict candidate raises AttributeError and an unhashable truthy id raises TypeError |
| DiverseFetch.UniqueCandidates | recc-engine/fetch_diverse_movies.py:118-125 | the loop returns exactly the first occurrence of every truthy, non-existing id in candidate order, or the exception the reference raises |
| DiverseFetch.EnrichMovie | recc-engine/fetch_diverse_movies.py:27-48 | enrichment raises only for a non-dict movie; when details arrive they form a dict and the duration is the elapsed time |
| DiverseFetch.EnrichWithoutId | recc-engine/fetch_diverse_movies.py:31-33 | a movie without an id gives (None, 0) and fetches nothing |
| DiverseFetch.EnrichKeepsDetails | recc-engine/fetch_diverse_movies.py:36-45 | the details keep all their fields and gain `keywords` from the keyword response ([] by default) |
| DiverseFetch.NewMovies | recc-engine/fetch_diverse_movies.py:144-147 | only truthy results are collected |
| DiverseFetch.NewMoviesMembers | recc-engine/fetch_diverse_movies.py:144-147 | a result is collected exactly when it is truthy |
| DiverseFetch.NewMoviesSnoc | recc-engine/fetch_diverse_movies.py:144-147 | one more completed result is appended after the earlier ones exactly when it is truthy, so the collection keeps completion order |
| DiverseFetch.Run | recc-engine/fetch_diverse_movies.py:118-156 | the run succeeds only when the existing ids and the de-duplication do; it saves nothing exactly when no candidate is left; a saved dataset is the existing movies, unchanged, followed by the collected ones |
| Json.Get | recc-engine/user.py:10-11 | `dict.get` succeeds exactly on a dict and gives the value or the default |
| Json.In | recc-engine/user.py:84 | `in` tests list membership, dict keys or substrings, and raises TypeError otherwise |
| Json.PyStr | recc-engine/encoding.py:41 | `str()` is defined for None, bools, integers and strings; an integer prints in decimal and a string is itself |
| Text.JoinSplit | Flicks/Flicks/UserState.swift:280 | splitting on a separator and joining back gives the text |
| Text.SplitJoin | recc-engine/app.py:141 | joining pieces without the separator character and splitting again gives the pieces |
| Text.Trim | Flicks/Flicks/UserState.swift:282 | a trimmed text neither starts nor ends with a trimmed character |
| Text.TrimIdempotent | Flicks/Flicks/UserState.swift:282 | trimming twice is trimming once |
| Text.TrimIsInfix | Flicks/Flicks/UserState.swift:282 | a trimmed text is a contiguous part of the original |
| Text.SwiftParseIntRoundTrip | Flicks/Flicks/APIService.swift:108 | `Int(String)` parses back every 64-bit integer's decimal text |
| Text.PyParseIntRoundTrip | recc-engine/user.py:79 | `int(str)` parses back every integer's decimal text |
| Text.LexIrreflexive | Flicks/Flicks/UserState.swift:288 | no string sorts before itself |
| Text.LexTransitive | Flicks/Flicks/UserState.swift:288 | the string order used by `sorted()` is transitive |
| Text.LexTotal | Flicks/Flicks/UserState.swift:288 | any two distinct strings are ordered one way or the other |

## Left out

- The SwiftUI views, animation, styling and authentication are UI, graphics or keychain code and are not part of this model.
- HTTP, `URLSession`, JSON encoding and decoding, and `addingPercentEncoding` (percent-encoding, section 2.1 of RFC 3986) are not modelled. The encoded user id is the id itself, and an id that cannot be encoded is a member of the `World`'s set of unencodable ids. Which replies the server gives is the `World`'s reply script.
- The real concurrency is not modelled: `Task {}`, `@MainActor`, the actor hops of the queue, and the race between the `isProcessingQueue` check (line 52) and its set (line 56). Each task body is a separate sequential method. A drain triggered while another is queued up behind `await` is not captured.
- `Date()` and `UUID()` are the `World`'s `now` and `nextId`. Dates are opaque stamps.
- Trapping duplicate keys is not modelled. `Dictionary(uniqueKeysWithValues:)` (UserState.swift line 122) traps when two usable records share a backend id, including two unparsable ids that both become 0. `Feed.UserState.HydrateProfile` and `Feed.UserState.FetchUserProfile` instead require the lookup reply not to contain such a pair.
- Feed.UserState.LoadProfileMovies: the lookup's id order (`Array(allIds)`) is not modelled. The call is logged with the id set.
- `fetchMovies(ids:)` is called by the client but is not defined in APIService.swift. It is modelled only as `Environment.World.FetchMovies`: one logged call answered by the next reply, with the same status classification.
- `printQueueStatus` and every `print`/log line are output only. `shownCount` is modelled because it is state.
- ChromaDB, SentenceTransformer, the TMDB client and tmdb_api.py are not modelled. The database reply (`get_profile_from_db`) is a `DbReply`. `encode_user_text`, `upsert_user_profile` and the collection upserts have no effect on the modelled state. The query's hits are given, and their four lists are required to be index-aligned (`Aligned`), as ChromaDB returns them.
- `json.loads` and `json.dumps` are given functions. Reading and writing files is modelled as the parsed file state (missing, unparsable, parsed) and the value that would be written.
- Floats are kept as opaque values except where the code compares or converts them (`int()` truncation, Python truthiness). Python's `1 == 1.0 == True` equality across types is not modelled; a float never equals an integer in the model.
- `str()` of a float, a list or a dict is outside the model. An id or genre name of that kind stops the modelled computation with "not modelled" rather than a value (`Encoding.Stop.NotModelled`, `ReccApi.Step.Unmodelled`).
- Iteration order of Python and Swift sets (`list(set)`, `Array(set)`) is not modelled. The model only promises which elements are listed (`Feed.ListSet`), and `ReccApi.EncodeUser` returns the keyword set itself.
- The candidate-gathering phase of fetch_diverse_movies.py (lines 56-115) is TMDB network calls. The candidate list is an input.
- The enrichment pool (lines 140-151) uses a thread pool whose `as_completed` order is nondeterministic. The results are taken as given, in completion order.
- The `if not embedding` 500 of `get_recommendations` (app.py lines 143-144) cannot be reached, because both branches above it set an embedding. It is not modelled.
- Pydantic request validation, FastAPI routing and the HTTP status bodies (`detail` texts) are not modelled. A handler answer is its recommendations or its status code.
- The `main()` of user.py and the other backend scripts (db.py, search.py, init_personas.py and the rest) are command-line or I/O plumbing.
- Task cancellation, and the `do`/`catch` around the background refill (which can never catch), are not modelled.
- UserProfile.JoinArg: `", ".join` of a non-empty dict joins the dict's keys in insertion order, which a `map` does not keep. The model answers `DictKeyOrder` for that case, and `ReccApi.Lift` turns it into "outside the model" rather than a text.
- Text.LexLess: Swift compares `String`s by Unicode canonical equivalence, and `Set<String>` membership uses the same equality. The model compares and sorts by code points (`Text.LexLess`, `Genres.SortNames`), so two differently normalised spellings of one genre stay two genres.
- DiverseFetch.Run: the saved enrichment results are the given completion-ordered list. The model does not tie each result to `enrich_movie` of a kept candidate, because lines 140-151 run that function in a thread pool over TMDB calls.
- UserProfile.BuildUserText: a profile whose genres or keywords is a non-empty dict gives no text in the model, for the key-order reason under `UserProfile.JoinArg`; an empty dict joins to "" as in Python.
- Text.PyParseInt: Python's `int()` also accepts non-ASCII Unicode decimal digits (Arabic-Indic or full-width digits, say). The model accepts ASCII digits only, so `UserProfile.Coerce` keeps such a string as a string instead of turning it into an integer.
- ReccApi.Recommend: its own contract states the id, the score and the 500s; the copied title, backdrop and genres are carried from `ReccApi.FromPayload` by the lemma `ReccApi.RecommendCopies`, because stating them on `Recommend` itself makes the proof of the result loop too costly for the solver.
