# SakPilot core, modelled in Dafny

SakPilot is a desktop client for Sakura Cloud. It has a Go backend and a React frontend. This project models the parts of it that hold real logic.

- **Object-storage browser** (`ObjectStorageList.tsx`). A three-screen state machine: sites, then the buckets of a site, then the objects of a bucket. It covers:
  - access-key auto-selection from the OS keyring, and saving and deleting secrets;
  - paged object listing with "load more";
  - a search fetch-ahead that pulls the remaining pages while a query is typed;
  - folder navigation (navigate up, the breadcrumb bar), display names, preview types, and downloads.
- **Search hook** (`useSearch.ts`): the filtered view of a list and the search bar's open/closed state.
- **Keyring naming** (`keyring.go`): the account names under the `sakpilot` service, and `Has` as "`Get` succeeds".
- **S3 listing** (`ListObjects` in `objectstorage.go`): the request it builds and the conversion of the SDK's answer.
- **Container-registry detail** (`ContainerRegistryDetail.tsx`):
  - users with their saved-password flags;
  - automatic activation of a saved "all"-permission user;
  - the active credentials that unlock the image and tag lists;
  - saving and deleting passwords.
- **AppRun pane** (`AppRunList.tsx`):
  - the tagged-union `View` and the breadcrumb built from it;
  - the loader each view selects, and the loaders themselves, including the per-load-balancer node map;
  - clearing an application's active version;
  - the version and node status marks.
- **Backend rules** (`app.go`): the default profile and zone, a cancelled download, and the first-access-key rule of the Prometheus queries.

## How the model is built

- **Components are classes.** A React component is a class whose fields are its state. Collections are `seq` fields that handlers replace wholesale, because the components never mutate an array in place. Related `useState` values are grouped in one datatype field, for example `KeySelection` or `Listing`.
- **Transitions are stated as whole snapshots.** Each handler, effect and loader is one atomic method. Its `ensures` gives the whole new state as an update of `old(Snapshot())`.
- **Backend calls are parameters.** Each backend call becomes a parameter holding its outcome, either a `Result` or an `Outcome`. A thrown value is `Thrown`: an `Error` with a message, or something else.
- **The keyring is a `SecretStore`.** It holds a map from (service, account) to secret. A store failure is a `fault` parameter.
- **Objects listing takes two steps.** `LoadObjects` sends the request and records it in `inFlight`. `ObjectsLoaded(i, outcome)` applies one answer to whatever the state is by then. The source has no stale-answer discard, and the model adds none.
- **The search fetch-ahead takes three steps.** `FetchAheadEffect` starts the 300 ms delay with the append request fixed at that moment. `FetchAheadTimerFired` sends it. `FetchAheadLoaded` appends the answer.
- **Effects compare dependencies.** An effect stores the dependency values it last saw and runs its body only when they changed.
- **Handlers require their screen.** A handler requires the screen on which its control is rendered.
- **JavaScript truthiness is written out.** It becomes `!= ""` and `.Some?`. Case mapping is ASCII only.

Behaviours of the code worth noting:
- Deleting a missing keyring item is an error (`NotFound`), not a silent success.
- A failed first-page objects listing clears the objects and prefixes.
- A failed registry `loadUsers` keeps the previous users.
- Going back to the bucket list does not reset the object search query.

## Model

| member | source | states |
|---|---|---|
| ObjectStorageBrowser.ListRequest | frontend/src/components/ObjectStorageList.tsx:155-169 | a listing is sent only with a site, key id, secret and bucket; the token goes out only when appending; pages are 100 keys of the given prefix |
| ObjectStorageBrowser.ListingAfter | frontend/src/components/ObjectStorageList.tsx:170-184 | a first page replaces and an append concatenates the objects; prefixes, hasMore and token come from the page; a failure records the error message, keeps the token and clears objects and prefixes only on a first page |
| ObjectStorageBrowser.AppendPagesAccumulate | frontend/src/components/ObjectStorageList.tsx:170-177 | after any number of appended pages the objects are the earlier ones followed by every page in order, with the last page's token, hasMore and prefixes |
| ObjectStorageBrowser.AppendKeepsEarlierMatches | frontend/src/components/ObjectStorageList.tsx:86-88 | the filtered object view after an append is the earlier filtered view followed by the page's matches |
| ObjectStorageBrowser.WithSavedFlags | frontend/src/components/ObjectStorageList.tsx:112-117 | one entry per listed key, in order, flagged exactly when the keyring holds its secret |
| ObjectStorageBrowser.FirstSaved | frontend/src/components/ObjectStorageList.tsx:121 | the index of the first flagged key, or none exactly when no key is flagged |
| ObjectStorageBrowser.KeysAfterListing | frontend/src/components/ObjectStorageList.tsx:105-136 | the guard on profile and site id; a failed listing leaves no keys; otherwise the first saved key is selected, and its secret becomes active and saved only when non-empty |
| ObjectStorageBrowser.AutoSelectionWithEmptySecret | frontend/src/components/ObjectStorageList.tsx:122-129 | a saved key whose stored secret is empty is still selected, with no secret and not saved |
| ObjectStorageBrowser.MarkSaved | frontend/src/components/ObjectStorageList.tsx:292-296 | only entries with the given id change, and only their flag |
| ObjectStorageBrowser.SavedKeyIsSelectable | frontend/src/components/ObjectStorageList.tsx:292-296 | after a key is flagged saved, auto-selection picks it or an earlier key |
| ObjectStorageBrowser.DeleteAfterSave | frontend/src/components/ObjectStorageList.tsx:314-318 | flagging and then unflagging a key equals unflagging it |
| ObjectStorageBrowser.BucketsAfter | frontend/src/components/ObjectStorageList.tsx:142-149 | the listed buckets with no error, or no buckets and the error message |
| ObjectStorageBrowser.DownloadErrorMessage | frontend/src/components/ObjectStorageList.tsx:433-438 | a message is shown exactly for an `Error` whose text lacks "cancelled", prefixed with the failure text |
| ObjectStorageBrowser.CancelledDownloadNotReported | frontend/src/components/ObjectStorageList.tsx:435-438 | the backend's error for a closed save dialog is never shown |
| ObjectStorageBrowser.Browser.constructor | frontend/src/components/ObjectStorageList.tsx:46-66 | the initial state: sites screen, nothing selected, empty lists, no effect run |
| ObjectStorageBrowser.Browser.LoadSites | frontend/src/components/ObjectStorageList.tsx:90-103 | with a profile, the listed sites, or none on failure; without one nothing changes |
| ObjectStorageBrowser.Browser.LoadAccessKeys | frontend/src/components/ObjectStorageList.tsx:105-136 | the key selection becomes `KeysAfterListing` of the previous one; nothing else changes |
| ObjectStorageBrowser.Browser.LoadBuckets | frontend/src/components/ObjectStorageList.tsx:138-153 | guarded by profile, site, key id and secret; otherwise the buckets view becomes `BucketsAfter` and loading ends |
| ObjectStorageBrowser.Browser.LoadObjects | frontend/src/components/ObjectStorageList.tsx:155-169 | when the guard passes, the error is cleared, loading starts and exactly the `ListRequest` call is recorded as in flight |
| ObjectStorageBrowser.Browser.ObjectsLoaded | frontend/src/components/ObjectStorageList.tsx:170-187 | one in-flight answer is applied by `ListingAfter` to the current listing, whatever folder is open, and removed from the in-flight list |
| ObjectStorageBrowser.Browser.FetchAheadLoaded | frontend/src/components/ObjectStorageList.tsx:230-233 | the fetch-ahead's answer is appended and the fetch-ahead ends |
| ObjectStorageBrowser.Browser.SitesEffect | frontend/src/components/ObjectStorageList.tsx:202-204 | sites are loaded once per profile |
| ObjectStorageBrowser.Browser.BucketsEffect | frontend/src/components/ObjectStorageList.tsx:207-211 | when key, secret, saved flag or site changed, buckets load only with a saved, non-empty secret |
| ObjectStorageBrowser.Browser.ObjectsEffect | frontend/src/components/ObjectStorageList.tsx:214-219 | when the selected bucket changed, its root folder is requested if the objects screen is open and credentials are set |
| ObjectStorageBrowser.Browser.FetchAheadEffect | frontend/src/components/ObjectStorageList.tsx:222-238 | on a change of query, hasMore or object count, a fetch-ahead starts only with a query, more pages and nothing loading, capturing the append request of the current folder |
| ObjectStorageBrowser.Browser.FetchAheadTimerFired | frontend/src/components/ObjectStorageList.tsx:228-230 | after the delay the captured request is sent, or the fetch-ahead ends when the guard stopped it |
| ObjectStorageBrowser.Browser.HandleSiteSelect | frontend/src/components/ObjectStorageList.tsx:240-250 | opens the site's buckets screen with cleared credentials and buckets, reports the site name, then applies the key listing |
| ObjectStorageBrowser.Browser.HandleBackToSites | frontend/src/components/ObjectStorageList.tsx:252-262 | back to the sites screen with no site, keys, secret or buckets, and an empty breadcrumb |
| ObjectStorageBrowser.Browser.HandleAccessKeySelect | frontend/src/components/ObjectStorageList.tsx:264-283 | selects the key, clears the buckets, and activates its stored secret exactly when it is non-empty |
| ObjectStorageBrowser.Browser.SecretInputChanged | frontend/src/components/ObjectStorageList.tsx:700-702 | typing replaces the secret and marks it unsaved |
| ObjectStorageBrowser.Browser.HandleSaveSecret | frontend/src/components/ObjectStorageList.tsx:285-303 | with a key and secret, the keyring gets exactly that entry; success flags that key only and loads buckets; failure only records the save error |
| ObjectStorageBrowser.Browser.HandleDeleteSecret | frontend/src/components/ObjectStorageList.tsx:305-322 | a successful delete removes exactly that entry, clears secret, flag and buckets and unflags the key; any failure changes nothing |
| ObjectStorageBrowser.Browser.HandleBucketSelect | frontend/src/components/ObjectStorageList.tsx:324-334 | opens the bucket at its root with an empty listing and reports site and bucket names |
| ObjectStorageBrowser.Browser.HandleBackToBuckets | frontend/src/components/ObjectStorageList.tsx:336-346 | back to the buckets screen with an empty listing; the object search query is kept |
| ObjectStorageBrowser.Browser.HandlePrefixClick | frontend/src/components/ObjectStorageList.tsx:348-355 | enters the folder with an empty listing and requests its first page |
| ObjectStorageBrowser.Browser.HandleNavigateUp | frontend/src/components/ObjectStorageList.tsx:357-368 | as a folder click on `NavigateUpPrefix` of the current folder |
| ObjectStorageBrowser.Browser.HandleLoadMore | frontend/src/components/ObjectStorageList.tsx:596-598 | while loading nothing happens; otherwise the next page of the current folder is requested |
| ObjectStorageBrowser.Browser.HandleGlobalReload | frontend/src/components/ObjectStorageList.tsx:190-198 | reloads exactly what the current screen shows |
| ObjectStorageBrowser.Browser.HandlePreview | frontend/src/components/ObjectStorageList.tsx:412-416 | opens the object with the JSON-lines viewer exactly for a gzipped JSON key and the text viewer exactly for a README or text extension |
| ObjectStorageBrowser.Browser.ClosePreview | frontend/src/components/ObjectStorageList.tsx:615 | closes the preview |
| ObjectStorageBrowser.Browser.HandleDownload | frontend/src/components/ObjectStorageList.tsx:418-442 | requests exactly that object of the open bucket with the open site's endpoint, the selected key id and secret, and `DownloadFileName` as the file name; only a non-cancel `Error` is recorded as the objects error |
| ObjectPaths.PathSegmentsAreSegments | frontend/src/components/ObjectStorageList.tsx:359 | the split-and-filter pieces are non-empty and free of '/' |
| ObjectPaths.SegmentsOfRender | frontend/src/components/ObjectStorageList.tsx:361 | splitting a rendered prefix gives back its folder names |
| ObjectPaths.NavigateUpPrefix | frontend/src/components/ObjectStorageList.tsx:359-361 | the new prefix is the root or ends with '/' |
| ObjectPaths.NavigateUpDropsLastSegment | frontend/src/components/ObjectStorageList.tsx:359-361 | navigating up removes exactly the last folder name and yields a canonical prefix |
| ObjectPaths.NavigateUpThenDescend | frontend/src/components/ObjectStorageList.tsx:359-361 | the new prefix followed by the dropped folder name and '/' is the old canonical prefix |
| ObjectPaths.NavigateUpExamples | frontend/src/components/ObjectStorageList.tsx:357-361 | "a/b/c/" goes up to "a/b/" |
| ObjectPaths.NavigateUpToRoot | frontend/src/components/ObjectStorageList.tsx:357-361 | "a/" and "" go up to the root |
| ObjectPaths.PathUpToSegments | frontend/src/components/ObjectStorageList.tsx:473 | the breadcrumb target of item i names exactly the first i+1 folders |
| ObjectPaths.NavigateUpFromBreadcrumb | frontend/src/components/ObjectStorageList.tsx:473 | navigating up from a breadcrumb target lands on the item to its left, or the root |
| ObjectPaths.LastBreadcrumbIsCurrent | frontend/src/components/ObjectStorageList.tsx:473-474 | the last breadcrumb of a canonical prefix is the prefix itself |
| ObjectPaths.Breadcrumbs | frontend/src/components/ObjectStorageList.tsx:461-490 | the root item opens "", then one item per folder name; every item but the last opens its prefix, the last opens nothing |
| ObjectPaths.DisplayNameInsideFolder | frontend/src/components/ObjectStorageList.tsx:377-380 | for a key inside the folder the display name is the rest of the key |
| ObjectPaths.DisplayNameUnanchored | frontend/src/components/ObjectStorageList.tsx:379 | the replacement removes the first occurrence anywhere, not only at the start |
| ObjectPaths.LastPieceIsSuffix | frontend/src/components/ObjectStorageList.tsx:395 | the last piece is a '/'-free suffix of the key, and the whole key when it has no '/' |
| ObjectPaths.GetPreviewType | frontend/src/components/ObjectStorageList.tsx:389-406 | JSON lines exactly for ".json.gz"/".jsonl.gz" in any case; text exactly otherwise for a README name or a text extension; none otherwise |
| ObjectPaths.IsPreviewable | frontend/src/components/ObjectStorageList.tsx:408-410 | previewable exactly when some preview type applies |
| ObjectPaths.DownloadFileName | frontend/src/components/ObjectStorageList.tsx:421 | a suffix of the key: its '/'-free last piece, or the whole key when that piece is empty |
| Search.EmptyQueryKeepsAll | frontend/src/hooks/useSearch.ts:33-36 | with no query every item is shown |
| Search.FilteredMembers | frontend/src/hooks/useSearch.ts:33-36 | with a query an item is shown exactly when the filter accepts it for the lower-cased query |
| Search.FilteredInOrder | frontend/src/hooks/useSearch.ts:33-36 | the filtered view is a subsequence of the items |
| Search.FilteredAppend | frontend/src/hooks/useSearch.ts:33-36 | filtering distributes over appending items |
| Search.SearchState.constructor | frontend/src/hooks/useSearch.ts:7-8 | no query and the bar closed |
| Search.SearchState.SetSearchQuery | frontend/src/hooks/useSearch.ts:7 | the query changes, the bar stays |
| Search.SearchState.CloseSearch | frontend/src/hooks/useSearch.ts:28-31 | closes the bar and clears the query |
| Search.SearchState.KeyDown | frontend/src/hooks/useSearch.ts:12-26 | Cmd/Ctrl+F opens the bar; Escape closes it and clears the query only when open; other keys change nothing |
| Keyring.Lookup | internal/sakura/keyring.go:22 | found exactly when the store has the entry, with its secret; otherwise `NotFound` |
| Keyring.SecretStore.Set | internal/sakura/keyring.go:16 | stores the secret, or fails with the backend error and changes nothing |
| Keyring.SecretStore.Delete | internal/sakura/keyring.go:28 | removes an existing entry; a missing one is `NotFound`; a backend failure changes nothing |
| Keyring.SaveObjectStorageSecret | internal/sakura/keyring.go:14-17 | on success the secret is readable back under the Object Storage account |
| Keyring.GetObjectStorageSecret | internal/sakura/keyring.go:20-23 | the lookup under the Object Storage account |
| Keyring.DeleteObjectStorageSecret | internal/sakura/keyring.go:26-29 | succeeds exactly when there is no fault and the entry existed, and then removes exactly it |
| Keyring.HasObjectStorageSecret | internal/sakura/keyring.go:32-35 | true exactly when the entry exists |
| Keyring.SaveContainerRegistrySecret | internal/sakura/keyring.go:38-41 | on success the password is readable back under the registry account |
| Keyring.GetContainerRegistrySecret | internal/sakura/keyring.go:44-47 | the lookup under the registry account |
| Keyring.DeleteContainerRegistrySecret | internal/sakura/keyring.go:50-53 | succeeds exactly when there is no fault and the entry existed, and then removes exactly it |
| Keyring.HasContainerRegistrySecret | internal/sakura/keyring.go:56-59 | true exactly when the entry exists |
| Keyring.ObjectStorageAccountShape | internal/sakura/keyring.go:15 | the account starts with "objectstorage/" and ends with "/" and the key id |
| Keyring.ObjectStorageAccountInjective | internal/sakura/keyring.go:15 | for site ids without '/', distinct (site, key) pairs get distinct accounts |
| Keyring.ObjectStorageAccountCollision | internal/sakura/keyring.go:15 | with a '/' in a site id two pairs share an account |
| Keyring.AccountNamespacesDisjoint | internal/sakura/keyring.go:15-39 | Object Storage and Container Registry accounts never coincide |
| Keyring.SaveObjectStorageIsolated | internal/sakura/keyring.go:14-17 | saving one (site, key) secret leaves every other lookup unchanged |
| Keyring.SaveContainerRegistryKeepsObjectStorage | internal/sakura/keyring.go:38-41 | saving a registry password leaves every Object Storage lookup unchanged |
| ObjectStorageApi.Config | internal/sakura/objectstorage.go:136-148 | region "jp-north-1", the given endpoint and credentials, path-style addressing |
| ObjectStorageApi.BuildInput | internal/sakura/objectstorage.go:150-162 | delimiter "/"; prefix, token and page size are set exactly when non-empty or positive |
| ObjectStorageApi.ToObjectInfo | internal/sakura/objectstorage.go:170-185 | absent key, size and date become "", 0 and "" |
| ObjectStorageApi.ConvertOutput | internal/sakura/objectstorage.go:169-195 | one object per content entry and one prefix per common prefix, in order; a missing token is ""; truncated only when the SDK says true |
| ObjectStorageApi.ListObjects | internal/sakura/objectstorage.go:134-203 | an SDK error is returned as the error; otherwise the converted answer to exactly the built request |
| AppRules.GetDefaultProfile | app.go:37-51 | "default" when profiles cannot be listed; else the first current profile, else the first profile, else "default" |
| AppRules.GetDefaultZone | app.go:84-90 | the client's zone, or "is1a" when no client can be built |
| AppRules.DownloadObjectStorageObject | app.go:673-685 | a dialog error is returned; an empty path is "cancelled"; otherwise the download's result for that path |
| AppRules.CancelledDownloadSkipsDownloader | app.go:681-683 | a cancelled dialog gives the same answer whatever the downloader does |
| AppRules.PrometheusToken | app.go:373-380 | fails exactly on an empty key list, with the storage's message; otherwise the first key's token |
| AppRules.MetricsQuery | app.go:354-381 | client, storage and key errors in that order; then the query against the storage endpoint with the first key's token |
| AppRules.MetricsQueryUsesFirstKeyOnly | app.go:373-380 | key lists that agree on the first key give the same answer |
| RegistryDetail.WithSecretFlags | frontend/src/components/ContainerRegistryDetail.tsx:61-66 | one entry per listed user, in order, flagged exactly when the keyring holds its password |
| RegistryDetail.FirstActivatable | frontend/src/components/ContainerRegistryDetail.tsx:70-72 | the first user with permission "all" and a saved password, or none exactly when there is none |
| RegistryDetail.Activation | frontend/src/components/ContainerRegistryDetail.tsx:69-79 | that user becomes active with its stored password only when the password is non-empty |
| RegistryDetail.MarkUserSaved | frontend/src/components/ContainerRegistryDetail.tsx:147-151 | only entries with the given user name change, and only their flag |
| RegistryDetail.SaveThenDeleteFlags | frontend/src/components/ContainerRegistryDetail.tsx:167-171 | flagging and then unflagging a user equals unflagging it |
| RegistryDetail.SavedAllUserIsActivatable | frontend/src/components/ContainerRegistryDetail.tsx:70-72 | after an "all" user is flagged saved, activation picks it or an earlier user |
| RegistryDetail.PaneAfter | frontend/src/components/ContainerRegistryDetail.tsx:98-102 | the listed entries with no error, or none and the error message |
| RegistryDetail.Detail.constructor | frontend/src/components/ContainerRegistryDetail.tsx:32-52 | the initial state: no users, no credentials, the info view |
| RegistryDetail.Detail.LoadUsers | frontend/src/components/ContainerRegistryDetail.tsx:54-85 | guarded by profile and registry id; a failure changes nothing; otherwise users with flags and `Activation` when it applies |
| RegistryDetail.Detail.LoadImages | frontend/src/components/ContainerRegistryDetail.tsx:87-106 | only with usable credentials: exactly that call, and the images become `PaneAfter` of the answer |
| RegistryDetail.Detail.LoadTags | frontend/src/components/ContainerRegistryDetail.tsx:108-128 | the same for the image's tags |
| RegistryDetail.Detail.UsersEffect | frontend/src/components/ContainerRegistryDetail.tsx:130-132 | users are loaded once |
| RegistryDetail.Detail.ImagesEffect | frontend/src/components/ContainerRegistryDetail.tsx:134-138 | when the credentials changed and are usable, images are loaded |
| RegistryDetail.Detail.StartPasswordEntry | frontend/src/components/ContainerRegistryDetail.tsx:397 | opens the user's password field |
| RegistryDetail.Detail.PasswordInputChanged | frontend/src/components/ContainerRegistryDetail.tsx:353 | replaces the typed password |
| RegistryDetail.Detail.CancelPasswordEntry | frontend/src/components/ContainerRegistryDetail.tsx:375-378 | closes the field and drops the typed password |
| RegistryDetail.Detail.HandleSavePassword | frontend/src/components/ContainerRegistryDetail.tsx:140-162 | an empty password or a store failure changes nothing; success stores exactly that entry, flags that user only, makes it active and closes the field |
| RegistryDetail.Detail.HandleDeletePassword | frontend/src/components/ContainerRegistryDetail.tsx:164-180 | success removes exactly that entry and unflags the user, clearing credentials and images only if it was active; any failure changes nothing |
| RegistryDetail.Detail.HandleImageClick | frontend/src/components/ContainerRegistryDetail.tsx:182-187 | opens the image's tags view with no tags, then loads them |
| RegistryDetail.Detail.ReloadTags | frontend/src/components/ContainerRegistryDetail.tsx:212 | reloads the open image's tags |
| RegistryDetail.Detail.HandleBackToImages | frontend/src/components/ContainerRegistryDetail.tsx:189-193 | back to the info view with no image and no tags; the tags error is kept |
| AppRunView.AncestorAt | frontend/src/components/AppRunList.tsx:190-231 | the screen at level i on the way to a view is i+1 deep |
| AppRunView.AncestorAtDepthIsSelf | frontend/src/components/AppRunList.tsx:19-25 | the last screen on the way to a view is the view itself |
| AppRunView.AncestorOfAncestor | frontend/src/components/AppRunList.tsx:190-231 | the way to an ancestor is a prefix of the way to the view |
| AppRunView.RenderBreadcrumb | frontend/src/components/AppRunList.tsx:187-237 | 1, 2, 3, 3, 4, 4 items for clusters, cluster, asg, app, lb, version; item i shows and, except the last, opens the screen at level i |
| AppRunView.LoaderFor | frontend/src/components/AppRunList.tsx:171-185 | each kind of view selects exactly its own loader |
| AppRunView.LoaderMatchesTarget | frontend/src/components/AppRunList.tsx:171-185 | two views select the same loader call exactly when they have the same kind and ids |
| AppRunView.VersionStatusOf | frontend/src/components/AppRunList.tsx:452-458 | "Active" exactly for the active version; "Draining" exactly for another version with active nodes |
| AppRunView.OpenedVersionKeepsActiveMark | frontend/src/components/AppRunList.tsx:637 | the version screen shows "Active" exactly when the row it was opened from did |
| AppRunView.AtMostOneActiveRow | frontend/src/components/AppRunList.tsx:434 | with distinct version numbers, no other row is "Active" |
| AppRunView.ClearedAppHasNoActiveRow | frontend/src/components/AppRunList.tsx:434 | once the active version is 0 no version from 1 up is "Active" |
| AppRunView.NodeHealthIgnoresCase | frontend/src/components/AppRunList.tsx:516 | the health mark does not depend on letter case |
| AppRunView.NodeHealthExamples | frontend/src/components/AppRunList.tsx:516 | "Running" and "HEALTHY" are healthy, "stopped" is not |
| AppRunView.NodesMapKeys | frontend/src/components/AppRunList.tsx:97-112 | the node map has an entry exactly for each listed load-balancer id |
| AppRunView.NodesMapLastWins | frontend/src/components/AppRunList.tsx:108-110 | an id's entry is the answer for the last load balancer listed with it, a failed answer counting as empty |
| AppRunView.ShownNodesOfListed | frontend/src/components/AppRunList.tsx:496 | under a listed load balancer the screen shows its answer |
| AppRunView.ShownNodesOfUnlisted | frontend/src/components/AppRunList.tsx:496 | under an unlisted id the screen shows no nodes |
| AppRunView.AppRunList.constructor | frontend/src/components/AppRunList.tsx:28-40 | the clusters view with empty lists and its loader due |
| AppRunView.AppRunList.SelectCluster | frontend/src/components/AppRunList.tsx:298 | opens the cluster |
| AppRunView.AppRunList.SelectApp | frontend/src/components/AppRunList.tsx:338-345 | opens the application with its active version, keeping the cluster |
| AppRunView.AppRunList.SelectAsg | frontend/src/components/AppRunList.tsx:375-381 | opens the group, keeping the cluster |
| AppRunView.AppRunList.SelectVersion | frontend/src/components/AppRunList.tsx:438-446 | opens the version, keeping cluster, application and active version |
| AppRunView.AppRunList.BreadcrumbClick | frontend/src/components/AppRunList.tsx:190-231 | opens a strictly shallower ancestor |
| AppRunView.AppRunList.ViewEffect | frontend/src/components/AppRunList.tsx:171-185 | after a view change, exactly `LoaderFor` of the view |
| AppRunView.AppRunList.LoadClusters | frontend/src/components/AppRunList.tsx:41-53 | the clusters, or none on failure |
| AppRunView.AppRunList.LoadClusterDetails | frontend/src/components/AppRunList.tsx:55-70 | applications and groups together; a failure of either changes nothing |
| AppRunView.AppRunList.LoadAppVersions | frontend/src/components/AppRunList.tsx:72-83 | the versions; a failure keeps the old ones |
| AppRunView.AppRunList.LoadASGDetails | frontend/src/components/AppRunList.tsx:85-118 | load balancers, workers and `NodesMapOf` their node answers; a failure of either listing changes nothing |
| AppRunView.AppRunList.LoadLBNodes | frontend/src/components/AppRunList.tsx:120-131 | the nodes; a failure keeps the old ones |
| AppRunView.AppRunList.LoadVersionDetail | frontend/src/components/AppRunList.tsx:133-145 | the detail, or none on failure |
| AppRunView.AppRunList.HandleClearActiveVersion | frontend/src/components/AppRunList.tsx:147-169 | success sets the same application with active version 0 and reloads its versions; failure returns the alert and keeps the view |

## Left out

- Unicode case mapping: `toLowerCase`/`toUpperCase` are modelled on ASCII letters only.
- `formatSize`, `formatDate` and the RFC 3339 rendering of dates: these are floating-point and locale formatting. A date reaches the model already rendered as text.
- Timing: the 300 ms delay, promise interleaving and React batching. Each handler, effect and loader is a discrete step. The single exception is the objects listing, which is split into sending and answering.
- Flags that only drive spinners and disabled buttons: `loadingAccessKeys`, `downloading`, `savingPassword`, `loadingImages`, `loadingTags`, `clearingActiveVersion`, the registry `loading` set by `loadUsers`, and the AppRun `loading`. The objects browser's `loading` is modelled because it gates "load more" and the fetch-ahead.
- `searchLoading` is not a separate field. It is derived as "the fetch-ahead is not idle".
- A `null` list from the backend is identified with an empty list.
- `onBreadcrumbChange` is modelled as the last value reported, held in a field.
- Keyring reads are modelled as never failing except with `NotFound`. `loadAccessKeys` therefore never reaches its catch after a successful listing.
- How the Wails bridge turns a Go `error` into a JavaScript rejection: a rejection is taken to be an `Error` carrying the Go message.
- The Prometheus queries other than `QueryMSPrometheusLabels` (the Range, Publishers and MetricsByPublisher queries) have the same shape. `AppRules.MetricsQuery` stands for all four, with the final query as a parameter.
- In the AppRun pane no transition creates the `lb` view. It exists only in the `View` union, and the model keeps it there.
- The rendering (JSX) itself: a screen's controls show up only as the screen having to be open before its handler may run.
- `ObjectStorageBrowser.Browser.HandleDownload`: does not model the backend's save dialog and download. It takes their outcome from `HandleDownload`'s caller. `AppRules.DownloadObjectStorageObject` models the backend side.
