# hybrids router core, modelled in Dafny

This project models the router of the hybrids web-component library: the
`router(views)` factory and its helpers in `src/router.js`, and the string
helpers of `src/utils.js` that it uses. It covers the following:

- **Registry.** `registerViews` flattens a tree of view lists into configs
  with a linear `order` each. `setupView` compiles a route string
  `path/:name?key1,key2` into a template with placeholders and a list of
  search keys. It memoises per view and indexes configs by id.
- **URLs.** `config.url(params)` fills the placeholders, appends the declared
  search keys present in `params` and caches the descriptor
  `{id, params, url, order}` under the URL it returns. `getUrl` and
  `getBackUrl` build on it.
- **Resolution.** `getStateFromURL` resolves a location through the URL
  cache, then the exact-path id table, then a fallback config.
- **Navigation.** `navigate` decides between seeking, replacing the top,
  pushing and collapsing the session's state list, and drives
  `window.history`.
- **Reconciliation.** `updateStack` reconciles a host's instance stack with
  the state list, positionally. It reuses, reconnects, disconnects and
  connects instances, and merges the top entry's params.
  `disconnectInstance` runs an instance's cleanups once and deletes its list.
- **Guarded navigation.** `resolve` and `resolveEvent` implement last-writer
  guarded navigation through `activePromise`. The click and submit handlers
  decide which events are taken over.
- **Host lifecycle.** `connect` checks for a duplicate router and a second
  router element, registers the views, writes an initial state, reconciles
  and starts listening for popstate. The function it returns undoes this.
- **Utilities.** `camelToDash` with its memo map, `pascalToDash` and
  `stringifyElement`.

Module layout, one file each:

| module | file | what it holds |
|---|---|---|
| `Wrappers` | wrappers.dfy | `Option` and `Result` |
| `Utils` | utils.dfy | the string helpers, with `camelToDash`'s memo as a class |
| `Routes` | routes.dfy | template parsing, `url(params)` as functions, locations and descriptors |
| `Registry` | registry.dfy | `setupView`/`registerViews` as functions over the registry tables |
| `Navigation` | navigation.dfy | the pure branch choice of `navigate` |
| `Stack` | stack.dfy | the reconciliation of `updateStack` as functions over an instance table |
| `Guard` | guard.dfy | the `activePromise` rule over a sequence of start/settle events |
| `Intercept` | intercept.dfy | the predicates of the click and submit handlers |
| `Browser` | browser.dfy | the `window.history` the router drives, as a class |
| `RouterCore` | router.dfy | the `Router` class holding the module-level state, with one method per source function or per step of one (`updateStack` becomes `PlaceEntry`, `MapEntry`, `MapState`, `DisconnectRest` and `UpdateStack`); a source function without state, such as `getFullUrl`, is a function of `Routes` |

The module-level maps of `src/router.js` become fields of
`RouterCore.Router`:

- `configs` and `ids` are `tables`;
- `urls` is `urls`;
- `disconnects` and the instances' own fields are `insts`;
- `stacks`, `routers`, `resolvers` and `activePromise` become fields of the
  same names.

Each method is proved against a function: one of the `Registry`, `Stack`,
`Navigation`, `Guard`, `Routes` or `Intercept` modules, or one of
`RouterCore`'s own (`UrlFor`, `UrlsAfter`, `Resolution`, `InitialEntry`,
`DispatchFrom`). The properties are proved about those functions.

The model represents the source's entities as follows:

- **Object identity.** Instances are handles (indices into `insts`). Views
  carry an `ident`, and a compiled config stands for itself by its view.
- **Placeholder.** The `Date.now()` placeholder is an abstract `Hole` piece
  of a template, distinct from every character.
- **Setup callbacks.** These are reduced to the cleanup each returns.
  Cleanups are recorded in `log` when they run.
- **Exceptions.** Every thrown exception is a `RouterError`, or a
  `UrlError` inside `UrlFailed`. Methods return the error instead of
  throwing.
- **Popstate.** `history.go` only queues a traversal (`traversals`). The
  environment runs the oldest one later (`TraverseHistory`): the cursor
  moves when the target entry exists, and the popstate event is dispatched
  (`DispatchPopstate`). That runs the window's listeners in order: the
  hosts' `updateStack` and the one-shot `replace` listener of a deferred
  collapse.
- **Promises.** A promise is a `PromiseRef`. A `.then` continuation is a
  queued `Continuation`, and `Settle(k)` runs one.

## Model

| member | source | states |
|---|---|---|
| `Utils.Lower` | src/utils.js:5 | lower-casing keeps the length and maps each ASCII capital to its small letter, everything else unchanged |
| `Utils.LowerOfNoUpper` | src/utils.js:5 | lower-casing a string with no capital returns it unchanged |
| `Utils.CamelDashesLength` | src/utils.js:5 | inserting dashes lengthens the input by the number of lower-then-upper adjacencies |
| `Utils.CamelDashed` | src/utils.js:5 | the value `camelToDash` computes: the dashes inserted at the humps, then lower-casing |
| `Utils.CamelDashedAt` | src/utils.js:5 | character `i` of the input lands, lower-cased, at `i` plus the adjacencies before it; a dash follows exactly where a small letter meets a capital |
| `Utils.CamelDashedShape` | src/utils.js:5 | the result of `camelToDash` has no capital and length input plus adjacencies |
| `Utils.CamelDashedNoUpper` | src/utils.js:5 | an input without capitals is returned unchanged |
| `Utils.CamelDashedIdempotent` | src/utils.js:5 | `camelToDash` applied to its own result changes nothing |
| `Utils.CamelToDashMemo.CamelToDash` | src/utils.js:1-9 | returns the dashed form; a cached input returns the cached value and leaves the map as it is; the map then maps the input to the result |
| `Utils.CamelToDashMemo.PascalToDash` | src/utils.js:11-13 | returns `camelToDash` of the Pascal-dashed input, caching it under the intermediate string |
| `Utils.DashBefore` | src/utils.js:12 | the positions the Pascal-case pattern matches: an uppercase letter that is not first and not followed by another uppercase letter |
| `Utils.PascalDashed` | src/utils.js:11-13 | the value `pascalToDash` computes: the Pascal-case dashes, then `camelToDash` |
| `Utils.PascalDashesFromShape` | src/utils.js:12 | the inserted characters are dashes only: removing dashes from the result gives the input with its dashes removed |
| `Utils.PascalDashesFromAt` | src/utils.js:12 | input character `k` lands at its offset plus the dashes before it, preceded by a dash exactly where `DashBefore` holds |
| `Utils.PascalDashesAt` | src/utils.js:12 | over the whole string: the output is the input plus one dash per `DashBefore` position, and each dash sits just before its uppercase letter |
| `Utils.PascalDashedShape` | src/utils.js:11-13 | `pascalToDash` yields no capital, never shortens, and returns a string without capitals unchanged |
| `Utils.StringifyElement` | src/utils.js:32-34 | `<` + the lower-cased tag name + `>` |
| `Routes.Lift` | src/router.js:58 | a pathname as a template: one literal piece per character |
| `Routes.LiftHasNoHoles` | src/router.js:58 | a pathname never contains the placeholder, so it can equal only a placeholder-free id |
| `Routes.SplitOn` | src/router.js:98-99 | `split` yields at least one part, none containing the separator |
| `Routes.SplitJoin` | src/router.js:98-99 | joining the parts with the separator gives back the string |
| `Routes.SegmentName` | src/router.js:102 | the placeholder name `[^/]+` is the longest prefix without `/` |
| `Routes.ParsePath` | src/router.js:101-105 | one hole per recorded key; keys are non-empty and `/`-free; a hole or a literal `:` is followed by `/` or the end; an empty route gives an empty template; a first character other than `:` stays literal |
| `Routes.ParsePathRender` | src/router.js:101-105 | writing each hole back as `:key` restores the route path, so parsing loses nothing |
| `Routes.Spelled` | src/router.js:101-105 | each key written back as `:key`, in order |
| `Routes.ParsesAsStep` | src/router.js:101-105 | a parse splits into its first piece and a parse of the rest of the route |
| `Routes.SegmentNameOf` | src/router.js:102 | the placeholder name of `k` followed by `/` or the end is `k` |
| `Routes.ParsePathUnique` | src/router.js:101-105 | any template and keys with the properties `ParsePath` promises that spell the route back are its parse, so those properties characterise it |
| `Routes.ParsePathParses` | src/router.js:101-105 | the parse has all those properties |
| `Routes.MakeConfig` | src/router.js:98-111 | the built config has exactly one hole per params key, at least one search key, and the given view and order |
| `Routes.MakeConfigNoQuery` | src/router.js:98-99 | a route without `?` declares the single search key `""` |
| `Routes.FillPath` | src/router.js:123-134 | the path with each hole filled, or the error for the first missing key (`FillPathOk`, `FillPathMissing`) |
| `Routes.PresentKeys` | src/router.js:137-142 | a key is kept exactly when it is declared and present in `params` |
| `Routes.QueryPairs` | src/router.js:136-145 | one `key=value` per present key, in declared order |
| `Routes.FillPathOk` | src/router.js:120-134 | filling succeeds iff every placeholder key is in `params`, and then fills each hole with its key's value in order |
| `Routes.FillPathMissing` | src/router.js:126-130 | the first absent key in order of appearance is the one named by the error |
| `Routes.FillPathNoParams` | src/router.js:128 | a template with holes and no params object fails with `ParamsNotObject` |
| `Routes.BuildUrl` | src/router.js:120-151 | `url(params)` without the cache write: the filled path and the query (`UrlShape`) |
| `Routes.UrlShape` | src/router.js:120-150 | `url(params)` succeeds iff every placeholder key is present; the URL is the filled path, then `?` and the `&`-joined pairs, with no `?` when no search key is present |
| `Routes.UrlWithoutParamsFails` | src/router.js:136-138 | `url()` without params always throws, since the search keys are never empty |
| `Routes.FullUrl` | src/router.js:48-50 | `getFullUrl`: pathname then search, without origin or fragment |
| `Routes.Href` | src/router.js:269 | `url.href`: origin, pathname, search and fragment |
| `Routes.ParseRelative` | src/router.js:48-50 | the location set from a relative URL keeps the origin, has pathname + search equal to that URL, no `?` in the pathname and no fragment |
| `Registry.Leaves` | src/router.js:161-172 | the views of a nested list with their orders, left to right (`LeavesSplit`, `LeavesSameViews`) |
| `Registry.SetupAll` | src/router.js:161-172 | `setupView` on each leaf in turn; keeps the tables well formed |
| `Registry.RegisterFrom` | src/router.js:164-169 | the loop of `registerViews` from entry `i` (`RegisterFromLeaves`, `RegisterFromStep`) |
| `Registry.SetupStep` | src/router.js:82-159 | an unseen view gets a fresh config at `order`, indexed by id; a known view returns its config and changes nothing; other configs are unchanged |
| `Registry.Register` | src/router.js:161-172 | registration keeps the tables well formed and returns a well-formed config |
| `Registry.SetupAllKeeps` | src/router.js:83-84 | a view already registered keeps its config whatever is registered after |
| `Registry.SetupAllOrder` | src/router.js:161-172 | after registration each view's config is its old one, or else the one built at the order of its first occurrence |
| `Registry.LeavesAt` | src/router.js:164-167 | entry `i` of a list contributes at order `base`, and the rest start at `base + 1` |
| `Registry.LeavesSplit` | src/router.js:164-167 | entry `index` of a list is registered at order `base + index` (a nested list with that base) |
| `Registry.PartSetup` | src/router.js:165-167 | a leaf entry is `setupView(view, order)` and a nested list is `registerViews(list, order)` |
| `Registry.RegisterFromLeaves` | src/router.js:164-169 | the loop over entries from `i` registers the flattened leaves in order |
| `Registry.RegisterFromStep` | src/router.js:164-169 | one loop pass at entry `i` and order `at` hands over to the next at `at + 1` |
| `Registry.FirstLeafIsLeaf` | src/router.js:168 | the leftmost, deepest view is the first flattened leaf |
| `Registry.RegisterResult` | src/router.js:161-172 | the result is undefined exactly when the tree has no view, and otherwise the config of the leftmost, deepest view |
| `Registry.RegisterAgain` | src/router.js:83-84 | registering the same tree again, at any base, changes nothing and returns the same config |
| `Registry.SetupAllRegistered` | src/router.js:83-84 | registering only known views leaves the tables unchanged |
| `Registry.LeavesSameViews` | src/router.js:161-172 | the base order changes only the orders of the flattened leaves, not their views |
| `Stack.CleanupsOf` | src/router.js:113 | the list holds exactly the truthy results of the setups, no more of them than setups |
| `Stack.CleanupsOfAppend` | src/router.js:113 | the cleanups keep the order of their setups: a concatenation gives the concatenated lists, one setup its cleanup if any |
| `Stack.ConnectExisting` | src/router.js:112-119 | connecting an existing instance records the config and a new cleanup list and keeps its fields; no other instance changes |
| `Stack.ConnectFresh` | src/router.js:112-119 | `connect()` appends a new instance with the config, its cleanup list and no fields |
| `Stack.Pairs` | src/router.js:175 | the cleanups run are those of the list, in order |
| `Stack.Disconnect` | src/router.js:174-177 | succeeds iff the instance has a list; then each cleanup is logged once in order and the list is deleted |
| `Stack.DisconnectOnce` | src/router.js:174-177 | a second disconnect of the same instance throws: cleanups never run twice |
| `Stack.Assign` | src/router.js:338 | `Object.assign`: params overwrite or add fields, other fields stay, config and list stay, other instances stay |
| `Stack.Resolve` | src/router.js:318 | `ids.get(id)` |
| `Stack.Place` | src/router.js:317-341 | one index of the map never shrinks the instance table nor changes a config, and yields a valid handle |
| `Stack.Expected` | src/router.js:322-339 | the instance an index ends with: the entry's config, connected; the reused instance's properties and, if it still had one, its list; the params only at the top |
| `Stack.PlaceEffect` | src/router.js:317-341 | one index: nothing placed iff no config; a fresh instance gets the next handle; a replaced previous instance loses its list and logs its cleanups; the placed instance is as `Expected` says; no other instance changes |
| `Stack.PlacePlaces` | src/router.js:322-335 | at one index the previous instance is kept when its config is the id's config, and otherwise a fresh handle with a config is made |
| `Stack.MapFrom` | src/router.js:317-342 | `state.map(...)` from index `i` (`MapFromPlaces`, `MapFromFails`, `MapFromMapped`) |
| `Stack.PlacedStep` | src/router.js:317-341 | one index extends the placed instances: distinct, placed as `PlacedAt` and as `Expected` |
| `Stack.PrevStep` | src/router.js:322-328 | one index changes no previous instance but its own, which loses only its list when replaced |
| `Stack.MappedStep` | src/router.js:317-341 | one index keeps the invariant of the map, the log growing by `DropLog` |
| `Stack.MapFromStep` | src/router.js:318-341 | one index of the map either throws, when it places nothing, or goes on from the table that index leaves |
| `Stack.LogStep` | src/router.js:322-326 | one index adds its previous instance's cleanups, when that one is replaced and still listed, to the log |
| `Stack.MapFromMapped` | src/router.js:317-342 | a stored stack ends the map with the invariant over every index |
| `Stack.MapFromPlaces` | src/router.js:317-342 | the pass from `i` places every index from `i` on as `PlacedAt` states |
| `Stack.MapFromFails` | src/router.js:318-335 | the map throws iff some entry's id has no config (`config.connect` of undefined) |
| `Stack.UpdateSpec` | src/router.js:311-347 | the instances, stored stack and normal return of `updateStack` (`UpdateSettles`, `UpdateTrailing`) |
| `Stack.UpdateSettles` | src/router.js:311-347 | over a previous stack without repeats the stored stack is distinct, one instance per entry, each reused or fresh as `PlacedAt` and ending as `Expected`; a replaced previous instance loses only its list |
| `Stack.UpdateTrailing` | src/router.js:345-347 | the call returns normally iff every trailing previous instance has a list; then each loses it, and the log grows by the replaced instances' cleanups in index order, then the trailing ones' in stack order |
| `Stack.ReconcileTwice` | src/router.js:311-347 | reconciling the same state again keeps the stack, runs and connects nothing, and only re-assigns the top params |
| `Stack.UpdateHandles` | src/router.js:311-347 | the table only grows; the stored stack refers to its instances, none twice when the previous stack had none twice |
| `Stack.UpdatePlaces` | src/router.js:311-343 | the new stack has the state list's length; each index holds the reused previous instance or a fresh one |
| `Stack.MapFromStable` | src/router.js:322-339 | over matching, connected instances the map returns the previous stack and only assigns the top params |
| `Stack.UpdateStable` | src/router.js:311-347 | reconciling an unchanged state keeps the stack, runs no cleanup, and merges only the top entry's params |
| `Stack.DisconnectFrom` | src/router.js:345-347 | the trailing loop touches only the instances beyond the new length |
| `Stack.DisconnectFromAll` | src/router.js:345-347 | over distinct connected instances the trailing loop succeeds, deletes every list and nothing else, and logs their cleanups in order |
| `Stack.DisconnectFromOk` | src/router.js:345-347 | over distinct instances the trailing loop returns normally iff every one of them has a list |
| `Stack.DisconnectFromStale` | src/router.js:345-347 | an instance beyond the new length with no list makes the loop throw |
| `Stack.CleanupLogFrame` | src/router.js:175 | the cleanups logged depend only on the lists of the instances disconnected |
| `Navigation.FindIndex` | src/router.js:182 | the first index whose id matches, or -1 exactly when none does |
| `Navigation.SpliceRemoved` | src/router.js:193 | `[...list].splice(i, 1, x)` returns the removed element alone |
| `Navigation.Decide` | src/router.js:179-222 | seek iff the id occurs, with offset `i - last`, zero iff it is the top; the replace branch never fires; push iff absent and order at least the top's, appending the target; collapse iff absent and lower order, `last` steps back to `[target]`; an empty list throws |
| `Navigation.ReplaceBranchAsWritten` | src/router.js:191-196 | the unreachable replace branch would store the old top alone, not the list with its top replaced |
| `Guard.Step` | src/router.js:235-240 | a start makes its promise active; a settle navigates iff its promise is the active one, and clears the slot unless it navigated and `navigate` threw |
| `Guard.Navigations` | src/router.js:237-240 | one decision per event, the k-th as `NavigationsAt` gives |
| `Guard.ActiveAfterPrefix` | src/router.js:235-239 | the active promise after `k` events is one step after `k - 1` |
| `Guard.NavigationsAt` | src/router.js:237-238 | the decision at event `k` is the step from the active promise after the first `k` events |
| `Guard.SettleNavigates` | src/router.js:235-240 | a settle navigates iff the event just before it started the same promise or was a navigating, throwing settle of it (or, first, that promise was active) |
| `Guard.StaleSettleDropsNewer` | src/router.js:235-240 | when the older of two attempts settles first, neither navigates |
| `Guard.ThrowKeepsSlot` | src/router.js:238-239 | a navigate that throws leaves the promise active, so a second continuation of it navigates again |
| `Guard.NewerSettlesFirst` | src/router.js:235-240 | when the newer attempt settles first it navigates and the older is dropped |
| `Intercept.AnchorIntercepts` | src/router.js:243-257 | the click handler's condition: unprevented, no Ctrl or Meta, an anchor on the path, same origin, its URL cached |
| `Intercept.FormIntercepts` | src/router.js:259-274 | the submit handler's condition: unprevented, same origin, the URL cached or the full `href` equal to the current one |
| `Intercept.AnchorBypass` | src/router.js:243-257 | prevented or modified clicks, clicks outside anchors, cross-origin clicks and clicks to uncached URLs are left alone |
| `Intercept.AnchorDecidedByTable` | src/router.js:243-257 | for a plain same-origin click the decision is whether the URL is cached, whatever the fragment |
| `Intercept.AnchorImpliesForm` | src/router.js:243-274 | a click taken over would also be taken over as a submission to the same target |
| `Intercept.FormToCurrentLocation` | src/router.js:266-270 | a submission to the exact current location is taken over even when uncached; changing only the fragment makes it left alone |
| `Intercept.FormBypass` | src/router.js:259-274 | prevented and cross-origin submissions are left alone; modifier keys play no part |
| `Intercept.FormIgnoresModifiers` | src/router.js:244-269 | with Ctrl held, a form to a known same-origin URL is taken over while an anchor to it is not |
| `Browser.History.PushState` | src/router.js:198-202 | forward entries are dropped, a new current entry holds the state at the URL resolved against the origin |
| `Browser.History.ReplaceState` | src/router.js:211 | only the current entry changes: its state, and its URL when one is given |
| `Browser.History.Go` | src/router.js:215-217 | `go(delta)` queues the traversal; entries and cursor do not change yet |
| `Browser.History.Traverse` | src/router.js:215-217 | the oldest traversal runs: the cursor moves by its delta iff the target entry exists |
| `RouterCore.UrlFor` | src/router.js:28-36 | `getUrl`: an unregistered view throws, otherwise `url(params)` of its config |
| `RouterCore.Resolution` | src/router.js:52-79 | `getStateFromURL`: the cache, then the exact-path id, then the fallback (`ResolveCaches`, `UrlThenResolve`, `FallbackFails`) |
| `RouterCore.UrlThenResolve` | src/router.js:53-55 | a URL built by `url(params)` resolves, from any location spelling it, to the descriptor with the config's id and order and the same params |
| `RouterCore.FallbackFails` | src/router.js:63-66 | with no cached descriptor and no exact path the fallback throws and nothing is cached |
| `RouterCore.ResolveCaches` | src/router.js:52-79 | a resolved descriptor is cached under the URL looked up; a miss on an exact path has empty params and the path's id; resolving again returns it and changes nothing |
| `RouterCore.RemoveFirst` | src/router.js:208 | removing a listener that is not registered changes nothing, and otherwise removes one registration |
| `RouterCore.RemoveFirstAfter` | src/router.js:208 | the first registration of the listener is the one removed |
| `RouterCore.LastCollapse` | src/router.js:206-213 | the last collapse target is absent iff every listener is a host's |
| `RouterCore.StepWalk` | src/router.js:206-213 | one listener keeps the stacks' handles valid and never shrinks the instance table |
| `RouterCore.DispatchFrom` | src/router.js:370 | a dispatch keeps the stacks' handles valid and never shrinks the instance table |
| `RouterCore.ListenersStep` | src/router.js:207-209 | while a dispatch runs, the collapse listeners already run have removed themselves |
| `RouterCore.DispatchState` | src/router.js:206-213 | after a popstate, the current entry holds the last collapse target alone at its URL and origin; with no collapse listener it is unchanged |
| `RouterCore.InitialEntry` | src/router.js:363-366 | an existing state is kept as it is; otherwise the error and the cache are those of `Resolution`, and on success the entry holds the resolved descriptor alone at its URL on the same origin |
| `RouterCore.InitialEntryLands` | src/router.js:363-366 | a written initial entry keeps the path and query, its descriptor is cached under them, and the step run again changes nothing |
| `RouterCore.Router.constructor` | src/router.js:7-11 | the module starts with empty `configs`, `disconnects`, `ids` and `urls` tables, no instances, stacks or listeners, and no active promise |
| `RouterCore.Router.SetupView` | src/router.js:82-159 | the config and tables are those `SetupStep` gives |
| `RouterCore.Router.RegisterViews` | src/router.js:161-172 | the result and tables are those `Register` gives; earlier configs are kept |
| `RouterCore.Router.RegisterEntry` | src/router.js:164-169 | one pass of the loop: the rest of the registration is unchanged, and the entry's first leaf config is the one returned |
| `RouterCore.Router.Url` | src/router.js:120-151 | the URL or error of `url(params)`, and the descriptor cached under the URL |
| `RouterCore.Router.GetUrl` | src/router.js:28-36 | an unregistered view throws; otherwise the URL of its config |
| `RouterCore.Router.GetBackUrl` | src/router.js:38-46 | a null state throws; with more than one entry the URL of the one below the top; otherwise `getUrl` |
| `RouterCore.Router.GetStateFromURL` | src/router.js:52-79 | the descriptor or error and the cache are those of `Resolution` |
| `RouterCore.Router.DisconnectInstance` | src/router.js:174-177 | each cleanup runs once, in order, and the list is deleted; no list means it throws and nothing changes |
| `RouterCore.Router.Connect` | src/router.js:112-119 | connects a fresh or the given instance as `ConnectFresh`/`ConnectExisting` |
| `RouterCore.Router.AssignParams` | src/router.js:338 | the instance's fields are merged with the params as `Assign` |
| `RouterCore.Router.PlaceEntry` | src/router.js:317-341 | the map callback at one index, as `Place` |
| `RouterCore.Router.MapEntry` | src/router.js:317-341 | one index of the map, as one unfolding of `MapFrom` |
| `RouterCore.Router.MapState` | src/router.js:315-343 | `state.map(...)` as `MapFrom` from index 0 |
| `RouterCore.Router.DisconnectRest` | src/router.js:345-347 | the trailing loop as `DisconnectFrom` |
| `RouterCore.Router.UpdateStack` | src/router.js:311-350 | instances and stacks become those `UpdateSpec` gives for the current state, and it throws as it does |
| `RouterCore.Router.Callback` | src/router.js:196 | `cb()` is `updateStack` of the host, failing with `ReconcileFailed` |
| `RouterCore.Router.SeekBy` | src/router.js:185-186 | `go(offset)`, queued only for a non-zero offset; nothing else changes |
| `RouterCore.Router.ReplaceAndCall` | src/router.js:192-196 | the current entry is replaced, then `cb()` runs |
| `RouterCore.Router.PushAndCall` | src/router.js:198-203 | the state is pushed at the target URL, then `cb()` runs |
| `RouterCore.Router.CollapseLater` | src/router.js:215-217 | the `replace` listener is added, then a traversal `offset` steps back is queued |
| `RouterCore.Router.Apply` | src/router.js:184-221 | the effect of the branch chosen: seek without `cb`, push then `cb`, collapse later or at once, an empty list throws |
| `RouterCore.Router.Navigate` | src/router.js:179-223 | resolve with no fallback, read the state list and apply `Decide`'s branch, or throw with nothing changed |
| `RouterCore.Router.RunListener` | src/router.js:206-213 | a listener runs: a collapse removes itself, replaces the entry and reconciles; a host's reconciles |
| `RouterCore.Router.DispatchPopstate` | src/router.js:206-213 | the instances, stacks and current entry become those of `DispatchFrom`; the collapse listeners are gone |
| `RouterCore.Router.TraverseHistory` | src/router.js:206-217 | a queued traversal runs; when it moves the cursor, the listeners run on the entry arrived at, as `DispatchFrom`; otherwise nothing changes |
| `RouterCore.Router.InitialState` | src/router.js:363-366 | the initial entry, error and cache are those `InitialEntry` gives |
| `RouterCore.Router.Prepare` | src/router.js:360-366 | the views are registered, the host added to `routers`, and the initial state written |
| `RouterCore.Router.Mount` | src/router.js:360-370 | after the initial state, `updateStack` runs, and the popstate listener is added when it returned normally |
| `RouterCore.Router.ConnectHost` | src/router.js:296-370 | a routed host or a second element throws with its message and changes nothing; otherwise registration, initial state, reconciliation and listening |
| `RouterCore.Router.DisconnectHost` | src/router.js:374-381 | the listener goes; every instance of the host's stack is disconnected in order; the host leaves `routers` unless that throws |
| `RouterCore.Router.Associate` | src/router.js:225-228 | the promise is associated with the event |
| `RouterCore.Router.ResolveEvent` | src/router.js:230-236 | the default is prevented, the event's promise (or a fresh resolved one) becomes active, and a continuation waits on it |
| `RouterCore.Router.Settle` | src/router.js:237-240 | a continuation is used up and runs as `Continued` states |
| `RouterCore.Router.RunContinuation` | src/router.js:237-240 | it navigates only if its promise is still active, and leaves the slot as `Guard.Step` for its promise and whether `navigate` threw |
| `RouterCore.Router.OnClick` | src/router.js:352-354 | the click is taken over exactly when `AnchorIntercepts` holds, and then `resolveEvent` runs |
| `RouterCore.Router.OnSubmit` | src/router.js:356-358 | the submit is taken over exactly when `FormIntercepts` holds, and then `resolveEvent` runs |

## Left out

- `Routes.Params`: a parameter value is modelled as its string form, the one `${params[key]}` writes into the URL, and is stored by value. The source copies the raw value onto the instance with `Object.assign` (src/router.js:338), so a number stays a number there. It also caches the caller's params object by reference (src/router.js:147), so a later mutation of that object shows in the cached descriptor.
- DOM event plumbing is not modelled. This covers `addEventListener` and
  `removeEventListener` for click and submit, `composedPath` with the
  anchor search, and the lookup of `submitter.formAction`. A click event
  carries its anchor's location, and a submit event carries its action
  resolved against the origin.
- `compile`, `callbacksMap`, `setupWrapper` and the prototype copying come
  from `src/define.js`, which is not part of this model. A view's setups are
  an abstract list of optional cleanups.
- `document.title`, `title`, the `get` factory with its `render`
  call, `observe` and `invalidate()` are UI side effects and are not
  modelled.
- Promise scheduling is not modelled: a continuation runs when `Settle` is
  called for it. Rejected guard promises never settle, so their
  continuation never runs. The source leaves that case open.
- `Date.now()` is an abstract placeholder piece. A route or a pathname is
  assumed never to contain its digits literally.
- `uuid`, `shadyCSS`, `dispatch`, `IS_IE` and `deferred` of `src/utils.js`
  are environment, randomness and event wrappers, and are not modelled.
- Regular expressions and `toLowerCase` are modelled as ASCII character
  rules. Characters outside ASCII are left as they are.
- URL parsing and normalisation of `new URL(...)` and of `pushState` URLs
  are not modelled: a relative URL becomes pathname plus search unchanged.
- The default `params = {}` of `getUrl` and `getBackUrl` is not modelled:
  callers always pass a map.
- `Browser.History.Go` takes only a non-zero delta. `go(0)` would reload
  the page, and the router never issues it.
- `Routes.MakeConfig` assumes every view declares router options with a
  `url`. `setupView` on a view without them throws a `TypeError` at
  `options.url.split` (line 98), and registration in the model has no such
  failure.
- `Routes.ParseRelative` does not split off a fragment. A `#` in a URL the
  router writes stays in its search part.
- `RouterCore.Router.DispatchPopstate` reports what a listener throws
  instead of propagating it. Every listener still runs, as with the
  browser's event dispatch.
- `Registry.Register` states only that the tables stay well formed. What it
  computes is stated by `RegisterResult`, `SetupAllOrder` and
  `RegisterAgain`.
- `RouterCore.StepWalk` and `RouterCore.DispatchFrom` state only handle
  validity and growth. Their effect on the entry is `DispatchState`, and the
  methods are tied to them exactly.
- The history's entry count is not tied to the state lists it stores. Only
  the router keeps them in step.

## Source quirks

The model reproduces the following behaviour of `src/router.js` as written.

- **The seek branch never calls `cb`.** Navigating to an id already in the
  state list only moves the cursor (lines 184-187). Reconciliation then
  waits for the host's popstate listener.
- **The same-id replace branch (lines 191-196) is dead.** `findIndex` would
  already have matched the top. As written it would also store
  `[currentState]`, because `splice` returns the removed element
  (`ReplaceBranchAsWritten`).
- **The fallback always throws.** `getStateFromURL`'s fallback calls
  `fallback.url()` with no params. The search keys are never empty, so this
  throws (`FallbackFails`). During a navigation the fallback is undefined,
  so an unknown URL throws there too.
- **A stale continuation clears `activePromise` (line 239).** When an
  older guarded attempt settles before a newer one, neither navigates
  (`StaleSettleDropsNewer`).
- **A `navigate` that throws keeps `activePromise` (lines 238-239).** The
  slot is not cleared, so a later continuation of the same promise
  navigates again (`ThrowKeepsSlot`).
- **`handleFormSubmit` does not check Ctrl or Meta**
  (`FormIgnoresModifiers`).
- **Forms compare the fragment, anchors do not.** The submit handler
  compares `href` with the current one, fragment included (line 269). The
  cache lookup of both handlers ignores it (`FormToCurrentLocation`,
  `AnchorDecidedByTable`).
- **A deferred collapse is one `go(-offset)`** (lines 215-217). The
  `replace` listener then writes `[next]` on the entry the traversal lands
  on.
- **`Object.assign` adds fields as well as overwriting them** (line 338,
  `Assign`).
- **A reused instance without a list is reconnected** (lines 329-331). Its
  properties are kept, and its setups run again (`Expected`).
- **A failed `connect` stays registered.** The host is added to `routers`
  before the initial state is written. If that throws, the host stays
  registered and no listener is added.
