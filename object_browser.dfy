/**
 * The object-storage browser (frontend/src/components/ObjectStorageList.tsx):
 * a three-screen state machine (sites, buckets of a site, objects of a
 * bucket) over the component's state.
 *
 * Every handler and effect is one atomic step. An objects listing is split
 * into the step that sends the request (`LoadObjects`, `FetchAheadTimerFired`)
 * and the step that receives one answer (`ObjectsLoaded`), since the
 * component awaits it while other events are handled; the other loaders are
 * single steps. Backend answers are parameters; the keyring is a `SecretStore`.
 */
module ObjectStorageBrowser {
  import opened Wrappers
  import opened Rejections
  import opened Text
  import opened Seqs
  import opened Search
  import opened Keyring
  import Api = ObjectStorageApi
  import opened ObjectPaths
  import AppRules

  datatype SiteInfo = SiteInfo(id: string, displayName: string, endpoint: string)
  datatype BucketInfo = BucketInfo(name: string, creationDate: string)
  /** An access key of the site, with whether the keyring holds its secret. */
  datatype AccessKeyEntry = AccessKeyEntry(id: string, hasSavedSecret: bool)
  datatype ViewMode = Sites | Buckets | Objects

  const PageSize: int := 100
  const SaveSecretFailedMessage: string := "シークレットキーの保存に失敗しました"
  const DownloadFailedPrefix: string := "ダウンロードに失敗しました: "

  /** The arguments of one `ListObjectStorageObjects` call. */
  datatype ListCall = ListCall(endpoint: string, accessKeyId: string, secretKey: string, bucketName: string,
                               prefix: string, continuationToken: string, maxKeys: int)

  /** A listing that has been sent and not yet answered. */
  datatype PendingList = PendingList(call: ListCall, append: bool)

  /**
   * The search fetch-ahead: not running, waiting out its delay with the
   * request it captured, or awaiting the answer to the append request it sent.
   */
  datatype FetchAhead = Idle | Delaying(request: Option<ListCall>) | Awaiting(call: ListCall)

  /** What the effects compare between renders. */
  datatype BucketsDeps = BucketsDeps(accessKeyId: string, secretKey: string, secretSaved: bool, site: Option<SiteInfo>)
  datatype FetchAheadDeps = FetchAheadDeps(query: string, hasMore: bool, objectCount: nat)

  /** The dependency values each effect saw when it last ran (`None`: it has not run yet). */
  datatype EffectDeps = EffectDeps(sites: Option<string>, buckets: Option<BucketsDeps>,
                                   objects: Option<Option<BucketInfo>>, fetchAhead: Option<FetchAheadDeps>)

  /** The component's state as one value. */
  datatype Model = Model(
    sites: seq<SiteInfo>, loading: bool, viewMode: ViewMode, selectedSite: Option<SiteInfo>, keys: KeySelection,
    bucketList: BucketsView, selectedBucket: Option<BucketInfo>, currentPrefix: string, listing: Listing,
    inFlight: seq<PendingList>, fetchAhead: FetchAhead, previewing: Option<Api.ObjectInfo>,
    previewType: Option<PreviewType>, reportedBreadcrumb: (Option<string>, Option<string>), deps: EffectDeps)

  // ---------------------------------------------------------------------
  // Listing requests and answers

  /**
   * The call `loadObjects(prefix, append)` makes, or `None` when its guard
   * stops it: the continuation token goes out only when appending, and a page
   * is always 100 keys.
   */
  function ListRequest(site: Option<SiteInfo>, accessKeyId: string, secretKey: string, bucket: Option<BucketInfo>,
                       prefix: string, append: bool, nextToken: string): (r: Option<ListCall>)
    ensures r.Some? <==> site.Some? && accessKeyId != "" && secretKey != "" && bucket.Some?
    ensures r.Some? ==> r.value.continuationToken == (if append then nextToken else "")
    ensures r.Some? ==> r.value.maxKeys == PageSize && r.value.prefix == prefix
    ensures r.Some? ==> r.value.endpoint == site.value.endpoint && r.value.bucketName == bucket.value.name
    ensures r.Some? ==> r.value.accessKeyId == accessKeyId && r.value.secretKey == secretKey
  {
    if site.None? || accessKeyId == "" || secretKey == "" || bucket.None? then None
    else Some(ListCall(site.value.endpoint, accessKeyId, secretKey, bucket.value.name, prefix,
                       if append then nextToken else "", PageSize))
  }

  /** The part of the state a listing answer changes. */
  datatype Listing = Listing(objects: seq<Api.ObjectInfo>, prefixes: seq<string>, hasMore: bool, nextToken: string,
                             objectsError: Option<string>)

  /** How one answer to an objects listing changes the listing state. */
  function ListingAfter(before: Listing, append: bool, outcome: Result<Api.ListObjectsResult, Thrown>): (after: Listing)
    ensures outcome.Success? && !append ==> after.objects == outcome.value.objects
    ensures outcome.Success? && append ==> after.objects == before.objects + outcome.value.objects
    ensures outcome.Success? ==> after.prefixes == outcome.value.prefixes
    ensures outcome.Success? ==> after.hasMore == outcome.value.isTruncated && after.nextToken == outcome.value.nextToken
    ensures outcome.Success? ==> after.objectsError == before.objectsError
    ensures outcome.Failure? ==> after.objectsError == Some(ErrorText(outcome.error))
    ensures outcome.Failure? ==> after.hasMore == before.hasMore && after.nextToken == before.nextToken
    ensures outcome.Failure? && !append ==> after.objects == [] && after.prefixes == []
    ensures outcome.Failure? && append ==> after.objects == before.objects && after.prefixes == before.prefixes
  {
    match outcome
    case Success(page) =>
      before.(objects := if append then before.objects + page.objects else page.objects,
              prefixes := page.prefixes, hasMore := page.isTruncated, nextToken := page.nextToken)
    case Failure(e) =>
      if append then before.(objectsError := Some(ErrorText(e)))
      else before.(objectsError := Some(ErrorText(e)), objects := [], prefixes := [])
  }

  /** Successive "load more" answers, each applied as an append. */
  function AppendPages(l: Listing, pages: seq<Api.ListObjectsResult>): Listing
    decreases |pages|
  {
    if pages == [] then l else AppendPages(ListingAfter(l, true, Success(pages[0])), pages[1..])
  }

  function AllObjects(pages: seq<Api.ListObjectsResult>): seq<Api.ObjectInfo>
    decreases |pages|
  {
    if pages == [] then [] else pages[0].objects + AllObjects(pages[1..])
  }

  /**
   * Paging accumulates: after any number of appended pages the objects are the
   * earlier objects followed by every page's objects in order, and the token,
   * `hasMore` and prefixes are those of the last page.
   */
  lemma {:induction false} AppendPagesAccumulate(l: Listing, pages: seq<Api.ListObjectsResult>)
    ensures AppendPages(l, pages).objects == l.objects + AllObjects(pages)
    ensures pages != [] ==> AppendPages(l, pages).nextToken == pages[|pages| - 1].nextToken
    ensures pages != [] ==> AppendPages(l, pages).hasMore == pages[|pages| - 1].isTruncated
    ensures pages != [] ==> AppendPages(l, pages).prefixes == pages[|pages| - 1].prefixes
    decreases |pages|
  {
    if pages != [] {
      var next := ListingAfter(l, true, Success(pages[0]));
      AppendPagesAccumulate(next, pages[1..]);
      assert l.objects + (pages[0].objects + AllObjects(pages[1..]))
          == (l.objects + pages[0].objects) + AllObjects(pages[1..]);
    }
  }

  /** The object search: the lower-cased key contains the (already lower-cased) query. */
  function ObjectMatches(obj: Api.ObjectInfo, query: string): bool {
    Contains(ToLower(obj.key), query)
  }

  function BucketMatches(bucket: BucketInfo, query: string): bool {
    Contains(ToLower(bucket.name), query)
  }

  /** An appended page never hides an earlier match: the search view grows by the page's matches. */
  lemma AppendKeepsEarlierMatches(before: Listing, page: Api.ListObjectsResult, query: string)
    ensures FilteredItems(ListingAfter(before, true, Success(page)).objects, query, ObjectMatches)
         == FilteredItems(before.objects, query, ObjectMatches) + FilteredItems(page.objects, query, ObjectMatches)
  {
    FilteredAppend(before.objects, page.objects, query, ObjectMatches);
  }

  // ---------------------------------------------------------------------
  // Access keys and the keyring

  /** The secret the keyring holds for (site, key), or "" when it holds none. */
  function StoredSecret(items: map<(string, string), string>, siteId: string, accessKeyId: string): (secret: string)
    ensures (Service, ObjectStorageAccount(siteId, accessKeyId)) !in items ==> secret == ""
    ensures (Service, ObjectStorageAccount(siteId, accessKeyId)) in items ==>
              secret == items[(Service, ObjectStorageAccount(siteId, accessKeyId))]
  {
    match Lookup(items, ObjectStorageAccount(siteId, accessKeyId))
    case Success(s) => s
    case Failure(_) => ""
  }

  /** In `loadAccessKeys`: each listed key with whether its secret is saved. */
  function WithSavedFlags(siteId: string, ids: seq<string>, items: map<(string, string), string>): (keys: seq<AccessKeyEntry>)
    ensures |keys| == |ids|
    ensures forall i :: 0 <= i < |ids| ==> keys[i].id == ids[i]
    ensures forall i :: 0 <= i < |ids| ==>
              (keys[i].hasSavedSecret <==> (Service, ObjectStorageAccount(siteId, ids[i])) in items)
  {
    seq(|ids|, i requires 0 <= i < |ids| =>
          AccessKeyEntry(ids[i], Lookup(items, ObjectStorageAccount(siteId, ids[i])).Success?))
  }

  /** `keysWithSaved.find(k => k.hasSavedSecret)`, as an index. */
  function FirstSaved(keys: seq<AccessKeyEntry>): (r: Option<nat>)
    ensures r.Some? ==> r.value < |keys| && keys[r.value].hasSavedSecret
    ensures r.Some? ==> forall j :: 0 <= j < r.value ==> !keys[j].hasSavedSecret
    ensures r.None? ==> forall j :: 0 <= j < |keys| ==> !keys[j].hasSavedSecret
    decreases |keys|
  {
    if keys == [] then None
    else if keys[0].hasSavedSecret then Some(0)
    else
      match FirstSaved(keys[1..])
      case None => None
      case Some(i) => Some(i + 1)
  }

  /** The access-key part of the state. */
  datatype KeySelection = KeySelection(accessKeys: seq<AccessKeyEntry>, selectedAccessKeyId: string,
                                       secretKey: string, secretSaved: bool)

  const NoKeys: KeySelection := KeySelection([], "", "", false)

  /**
   * What `loadAccessKeys(siteId)` makes of the key selection `before`: the
   * listed keys with their saved flags; the first key with a saved secret is
   * selected, and its secret is made active only when it is non-empty. A failed
   * key listing leaves no keys; an empty profile or site id changes nothing.
   */
  function KeysAfterListing(profile: string, siteId: string, before: KeySelection,
                            listed: Result<seq<string>, Thrown>, items: map<(string, string), string>): (sel: KeySelection)
    ensures profile == "" || siteId == "" ==> sel == before
    ensures profile != "" && siteId != "" && listed.Failure? ==> sel == before.(accessKeys := [])
    ensures profile != "" && siteId != "" && listed.Success? ==>
              && sel.accessKeys == WithSavedFlags(siteId, listed.value, items)
              && (FirstSaved(sel.accessKeys).None? ==>
                    sel.selectedAccessKeyId == before.selectedAccessKeyId && sel.secretKey == before.secretKey
                    && sel.secretSaved == before.secretSaved)
              && (FirstSaved(sel.accessKeys).Some? ==>
                    var id := sel.accessKeys[FirstSaved(sel.accessKeys).value].id;
                    var secret := StoredSecret(items, siteId, id);
                    && sel.selectedAccessKeyId == id
                    && (secret != "" ==> sel.secretKey == secret && sel.secretSaved)
                    && (secret == "" ==> sel.secretKey == before.secretKey && sel.secretSaved == before.secretSaved))
  {
    if profile == "" || siteId == "" then before
    else
      match listed
      case Failure(_) => before.(accessKeys := [])
      case Success(ids) =>
        var keys := WithSavedFlags(siteId, ids, items);
        match FirstSaved(keys)
        case None => before.(accessKeys := keys)
        case Some(i) =>
          var id := keys[i].id;
          var secret := StoredSecret(items, siteId, id);
          if secret != "" then KeySelection(keys, id, secret, true)
          else before.(accessKeys := keys, selectedAccessKeyId := id)
  }

  /**
   * After a site is opened (key, secret and flag cleared) a key whose stored
   * secret is empty is still selected; the secret then stays inactive.
   */
  lemma AutoSelectionWithEmptySecret(profile: string, siteId: string, items: map<(string, string), string>, id: string)
    requires profile != "" && siteId != ""
    requires items == map[(Service, ObjectStorageAccount(siteId, id)) := ""]
    ensures KeysAfterListing(profile, siteId, NoKeys, Success([id]), items) == KeySelection([AccessKeyEntry(id, true)], id, "", false)
  {
    var keys := WithSavedFlags(siteId, [id], items);
    assert keys == [AccessKeyEntry(id, true)];
    assert FirstSaved(keys) == Some(0);
  }

  /** `accessKeys.map(k => k.id === id ? { ...k, hasSavedSecret: flag } : k)`. */
  function MarkSaved(keys: seq<AccessKeyEntry>, id: string, flag: bool): (r: seq<AccessKeyEntry>)
    ensures |r| == |keys|
    ensures forall i :: 0 <= i < |keys| ==> r[i].id == keys[i].id
    ensures forall i :: 0 <= i < |keys| && keys[i].id == id ==> r[i].hasSavedSecret == flag
    ensures forall i :: 0 <= i < |keys| && keys[i].id != id ==> r[i] == keys[i]
  {
    seq(|keys|, i requires 0 <= i < |keys| => if keys[i].id == id then keys[i].(hasSavedSecret := flag) else keys[i])
  }

  /** After a save the saved key is the one auto-selection would pick, unless an earlier key was already saved. */
  lemma SavedKeyIsSelectable(keys: seq<AccessKeyEntry>, i: nat)
    requires i < |keys|
    ensures FirstSaved(MarkSaved(keys, keys[i].id, true)).Some?
    ensures FirstSaved(MarkSaved(keys, keys[i].id, true)).value <= i
  {
    var r := MarkSaved(keys, keys[i].id, true);
    assert r[i].hasSavedSecret;
  }

  /** Deleting after saving leaves the flags as a delete alone would. */
  lemma DeleteAfterSave(keys: seq<AccessKeyEntry>, id: string)
    ensures MarkSaved(MarkSaved(keys, id, true), id, false) == MarkSaved(keys, id, false)
  {
    var a := MarkSaved(MarkSaved(keys, id, true), id, false);
    var b := MarkSaved(keys, id, false);
    assert |a| == |b|;
    forall i | 0 <= i < |a| ensures a[i] == b[i] {
    }
  }

  /** The bucket part of the state after `loadBuckets` got an answer. */
  datatype BucketsView = BucketsView(buckets: seq<BucketInfo>, bucketsError: Option<string>)

  function BucketsAfter(listed: Result<seq<BucketInfo>, Thrown>): (v: BucketsView)
    ensures listed.Success? ==> v.buckets == listed.value && v.bucketsError.None?
    ensures listed.Failure? ==> v.buckets == [] && v.bucketsError == Some(ErrorText(listed.error))
  {
    match listed
    case Success(list) => BucketsView(list, None)
    case Failure(e) => BucketsView([], Some(ErrorText(e)))
  }

  // ---------------------------------------------------------------------
  // Downloads

  /** The catch of `handleDownload`: only an `Error` whose message does not mention "cancelled" is shown. */
  function DownloadErrorMessage(thrown: Thrown): (m: Option<string>)
    ensures m.Some? <==> thrown.ErrorObject? && !Contains(thrown.message, AppRules.CancelledMessage)
    ensures m.Some? ==> m.value == DownloadFailedPrefix + thrown.message
  {
    match thrown
    case ErrorObject(msg) => if Contains(msg, AppRules.CancelledMessage) then None else Some(DownloadFailedPrefix + msg)
    case OtherValue(_) => None
  }

  /** Closing the save dialog is never reported: the backend's "cancelled" error is suppressed however it is thrown. */
  lemma CancelledDownloadNotReported(req: AppRules.DownloadRequest, download: AppRules.Downloader, thrown: Thrown)
    requires AppRules.DownloadObjectStorageObject(req, Success(""), download) == Some(ErrorText(thrown))
    ensures DownloadErrorMessage(thrown) == None
  {
    if thrown.ErrorObject? {
      assert thrown.message == AppRules.CancelledMessage;
      assert OccursAt(thrown.message, AppRules.CancelledMessage, 0);
    }
  }

  // ---------------------------------------------------------------------
  // The component

  class Browser {
    const profile: string
    const bucketSearch: SearchState
    const objectSearch: SearchState

    var sites: seq<SiteInfo>
    var loading: bool
    var viewMode: ViewMode
    var selectedSite: Option<SiteInfo>
    /** `accessKeys`, `selectedAccessKeyId`, `secretKey` and `secretSaved`. */
    var keys: KeySelection
    /** `buckets` and `bucketsError`. */
    var bucketList: BucketsView
    var selectedBucket: Option<BucketInfo>
    var currentPrefix: string
    /** `objects`, `prefixes`, `hasMore`, `nextToken` and `objectsError`. */
    var listing: Listing
    var inFlight: seq<PendingList>
    /** The running fetch-ahead; `searchLoading` is set exactly while it is not `Idle`. */
    var fetchAhead: FetchAhead
    var previewing: Option<Api.ObjectInfo>
    var previewType: Option<PreviewType>
    /** The last (site name, bucket name) handed to `onBreadcrumbChange`. */
    var reportedBreadcrumb: (Option<string>, Option<string>)
    var deps: EffectDeps

    function Snapshot(): Model
      reads this
    {
      Model(sites, loading, viewMode, selectedSite, keys, bucketList, selectedBucket, currentPrefix, listing,
            inFlight, fetchAhead, previewing, previewType, reportedBreadcrumb, deps)
    }

    /**
     * The screen matches the selections: no site on the sites screen (and no
     * key, secret or buckets either), a bucket exactly on the objects screen,
     * the root folder outside it.
     */
    predicate Valid()
      reads this
    {
      && (viewMode == Sites <==> selectedSite.None?)
      && (viewMode == Objects <==> selectedBucket.Some?)
      && (viewMode == Sites ==> keys == NoKeys && bucketList == BucketsView([], None))
      && (viewMode != Objects ==> currentPrefix == "")
    }

    /** `searchLoading`. */
    function SearchLoading(): bool
      reads this
    {
      !fetchAhead.Idle?
    }

    /** `filteredObjects`: the objects the table shows while searching. */
    function FilteredObjects(): seq<Api.ObjectInfo>
      reads this, objectSearch
    {
      FilteredItems(listing.objects, objectSearch.searchQuery, ObjectMatches)
    }

    /** `filteredBuckets`. */
    function FilteredBuckets(): seq<BucketInfo>
      reads this, bucketSearch
    {
      FilteredItems(bucketList.buckets, bucketSearch.searchQuery, BucketMatches)
    }

    /** The call `loadObjects(prefix, append)` of the current render would make. */
    function RequestFor(prefix: string, append: bool): Option<ListCall>
      reads this
    {
      ListRequest(selectedSite, keys.selectedAccessKeyId, keys.secretKey, selectedBucket, prefix, append, listing.nextToken)
    }

    /** The site name `onBreadcrumbChange` is given from the buckets and objects screens (`displayName || null`). */
    function SiteCaption(): Option<string>
      reads this
    {
      if selectedSite.Some? && selectedSite.value.displayName != "" then Some(selectedSite.value.displayName) else None
    }

    constructor (profile: string)
      ensures Valid() && fresh(bucketSearch) && fresh(objectSearch) && this.profile == profile
      ensures bucketSearch.searchQuery == "" && objectSearch.searchQuery == ""
      ensures Snapshot() == Model([], false, Sites, None, NoKeys, BucketsView([], None), None, "",
                                  Listing([], [], false, "", None), [], Idle, None, None, (None, None),
                                  EffectDeps(None, None, None, None))
    {
      this.profile := profile;
      bucketSearch := new SearchState();
      objectSearch := new SearchState();
      sites, loading, viewMode, selectedSite := [], false, Sites, None;
      keys, bucketList, selectedBucket, currentPrefix := NoKeys, BucketsView([], None), None, "";
      listing, inFlight, fetchAhead := Listing([], [], false, "", None), [], Idle;
      previewing, previewType, reportedBreadcrumb := None, None, (None, None);
      deps := EffectDeps(None, None, None, None);
    }

    // ----- loaders

    /** `loadSites`: a failed listing leaves no sites. */
    method LoadSites(listed: Result<seq<SiteInfo>, Thrown>)
      requires Valid()
      modifies this
      ensures Valid()
      ensures profile == "" ==> Snapshot() == old(Snapshot())
      ensures profile != "" ==>
                Snapshot() == old(Snapshot()).(sites := if listed.Success? then listed.value else [], loading := false)
    {
      if profile == "" {
        return;
      }
      loading := true;
      match listed {
        case Success(list) => sites := list;
        case Failure(_) => sites := [];
      }
      loading := false;
    }

    /**
     * `loadAccessKeys(siteId)`, called once the site's screen is open: lists
     * the keys, flags those with a saved secret, and selects the first of them.
     */
    method LoadAccessKeys(siteId: string, listed: Result<seq<string>, Thrown>, store: SecretStore)
      requires Valid() && viewMode == Buckets
      modifies this
      ensures Valid()
      ensures Snapshot() == old(Snapshot()).(keys := KeysAfterListing(profile, siteId, old(keys), listed, store.items))
    {
      if profile == "" || siteId == "" {
        return;
      }
      match listed {
        case Failure(_) =>
          keys := keys.(accessKeys := []);
        case Success(ids) =>
          var keysWithSaved := WithSavedFlags(siteId, ids, store.items);
          keys := keys.(accessKeys := keysWithSaved);
          var savedKey := FirstSaved(keysWithSaved);
          if savedKey.Some? {
            var id := keysWithSaved[savedKey.value].id;
            keys := keys.(selectedAccessKeyId := id);
            var savedSecret := GetObjectStorageSecret(store, siteId, id);
            if savedSecret.Success? && savedSecret.value != "" {
              keys := keys.(secretKey := savedSecret.value, secretSaved := true);
            }
          }
      }
    }

    /** `loadBuckets`: needs a site, a key and a secret; a failed listing records its error and leaves no buckets. */
    method LoadBuckets(listed: Result<seq<BucketInfo>, Thrown>)
      requires Valid()
      modifies this
      ensures Valid()
      ensures old(profile == "" || selectedSite.None? || keys.selectedAccessKeyId == "" || keys.secretKey == "") ==>
                Snapshot() == old(Snapshot())
      ensures old(profile != "" && selectedSite.Some? && keys.selectedAccessKeyId != "" && keys.secretKey != "") ==>
                Snapshot() == old(Snapshot()).(loading := false, bucketList := BucketsAfter(listed))
    {
      if profile == "" || selectedSite.None? || keys.selectedAccessKeyId == "" || keys.secretKey == "" {
        return;
      }
      loading := true;
      bucketList := bucketList.(bucketsError := None);
      match listed {
        case Success(list) =>
          bucketList := bucketList.(buckets := list);
        case Failure(e) =>
          bucketList := BucketsView([], Some(ErrorText(e)));
      }
      loading := false;
    }

    /** `loadObjects(prefix, append)` up to the `await`: sends the request, or does nothing when the guard stops it. */
    method LoadObjects(prefix: string, append: bool)
      requires Valid()
      modifies this
      ensures Valid()
      ensures old(RequestFor(prefix, append)).None? ==> Snapshot() == old(Snapshot())
      ensures old(RequestFor(prefix, append)).Some? ==>
                Snapshot() == old(Snapshot()).(loading := true, listing := old(listing).(objectsError := None),
                                               inFlight := old(inFlight) + [PendingList(old(RequestFor(prefix, append)).value, append)])
    {
      var request := RequestFor(prefix, append);
      if request.None? {
        return;
      }
      loading := true;
      listing := listing.(objectsError := None);
      inFlight := inFlight + [PendingList(request.value, append)];
    }

    /**
     * The answer to the sent listing `i` arrives. It is applied to whatever the
     * current folder and bucket are now: nothing discards a stale answer.
     */
    method ObjectsLoaded(i: nat, outcome: Result<Api.ListObjectsResult, Thrown>)
      requires Valid() && i < |inFlight|
      modifies this
      ensures Valid()
      ensures Snapshot() == old(Snapshot()).(listing := ListingAfter(old(listing), old(inFlight[i].append), outcome),
                                             loading := false, inFlight := old(inFlight[..i] + inFlight[i + 1..]))
    {
      var p := inFlight[i];
      inFlight := inFlight[..i] + inFlight[i + 1..];
      match outcome {
        case Success(result) =>
          var objects := if p.append then listing.objects + result.objects else result.objects;
          listing := listing.(objects := objects, prefixes := result.prefixes, hasMore := result.isTruncated,
                              nextToken := result.nextToken);
        case Failure(e) =>
          listing := listing.(objectsError := Some(ErrorText(e)));
          if !p.append {
            listing := listing.(objects := [], prefixes := []);
          }
      }
      loading := false;
    }

    /**
     * The answer to the fetch-ahead's request arrives: it is appended like any
     * "load more" answer, and the fetch-ahead ends.
     */
    method FetchAheadLoaded(outcome: Result<Api.ListObjectsResult, Thrown>)
      requires Valid() && fetchAhead.Awaiting?
      modifies this
      ensures Valid() && !SearchLoading()
      ensures Snapshot() == old(Snapshot()).(listing := ListingAfter(old(listing), true, outcome), loading := false,
                                             fetchAhead := Idle)
    {
      match outcome {
        case Success(result) =>
          listing := listing.(objects := listing.objects + result.objects, prefixes := result.prefixes,
                              hasMore := result.isTruncated, nextToken := result.nextToken);
        case Failure(e) =>
          listing := listing.(objectsError := Some(ErrorText(e)));
      }
      loading := false;
      fetchAhead := Idle;
    }

    // ----- effects

    /** The mount effect: load the sites once for the profile. */
    method SitesEffect(listed: Result<seq<SiteInfo>, Thrown>)
      requires Valid()
      modifies this
      ensures Valid()
      ensures old(deps.sites) == Some(profile) ==> Snapshot() == old(Snapshot())
      ensures old(deps.sites) != Some(profile) && profile == "" ==>
                Snapshot() == old(Snapshot()).(deps := old(deps).(sites := Some(profile)))
      ensures old(deps.sites) != Some(profile) && profile != "" ==>
                Snapshot() == old(Snapshot()).(deps := old(deps).(sites := Some(profile)), loading := false,
                                               sites := if listed.Success? then listed.value else [])
    {
      if deps.sites == Some(profile) {
        return;
      }
      deps := deps.(sites := Some(profile));
      LoadSites(listed);
    }

    /** When the key, secret, saved flag or site changed, load buckets if a saved secret is active. */
    method BucketsEffect(listed: Result<seq<BucketInfo>, Thrown>)
      requires Valid()
      modifies this
      ensures Valid()
      ensures var seen := old(BucketsDeps(keys.selectedAccessKeyId, keys.secretKey, keys.secretSaved, selectedSite));
              var due := seen.accessKeyId != "" && seen.secretKey != "" && seen.secretSaved;
              && (old(deps.buckets) == Some(seen) ==> Snapshot() == old(Snapshot()))
              && (old(deps.buckets) != Some(seen) && (!due || profile == "" || old(selectedSite).None?) ==>
                    Snapshot() == old(Snapshot()).(deps := old(deps).(buckets := Some(seen))))
              && (old(deps.buckets) != Some(seen) && due && profile != "" && old(selectedSite).Some? ==>
                    Snapshot() == old(Snapshot()).(deps := old(deps).(buckets := Some(seen)), loading := false,
                                                   bucketList := BucketsAfter(listed)))
    {
      var seen := BucketsDeps(keys.selectedAccessKeyId, keys.secretKey, keys.secretSaved, selectedSite);
      if deps.buckets == Some(seen) {
        return;
      }
      deps := deps.(buckets := Some(seen));
      if keys.selectedAccessKeyId != "" && keys.secretKey != "" && keys.secretSaved {
        LoadBuckets(listed);
      }
    }

    /** When the selected bucket changed, list its root folder. */
    method ObjectsEffect()
      requires Valid()
      modifies this
      ensures Valid()
      ensures old(deps.objects) == Some(old(selectedBucket)) ==> Snapshot() == old(Snapshot())
      ensures old(deps.objects) != Some(old(selectedBucket)) && old(viewMode != Objects || RequestFor("", false).None?) ==>
                Snapshot() == old(Snapshot()).(deps := old(deps).(objects := Some(old(selectedBucket))))
      ensures old(deps.objects) != Some(old(selectedBucket)) && old(viewMode == Objects && RequestFor("", false).Some?) ==>
                Snapshot() == old(Snapshot()).(deps := old(deps).(objects := Some(old(selectedBucket))), loading := true,
                                               listing := old(listing).(objectsError := None),
                                               inFlight := old(inFlight) + [PendingList(old(RequestFor("", false)).value, false)])
    {
      if deps.objects == Some(selectedBucket) {
        return;
      }
      deps := deps.(objects := Some(selectedBucket));
      if viewMode == Objects && selectedBucket.Some? && keys.selectedAccessKeyId != "" && keys.secretKey != "" {
        LoadObjects("", false);
      }
    }

    /**
     * When the object query, `hasMore` or the number of objects changed, and a
     * query is typed, more pages exist and nothing is loading, start a
     * fetch-ahead: the append request for the current folder is fixed now and
     * sent when the delay ends.
     */
    method FetchAheadEffect()
      requires Valid()
      modifies this
      ensures Valid()
      ensures var seen := FetchAheadDeps(objectSearch.searchQuery, old(listing.hasMore), |old(listing.objects)|);
              var due := objectSearch.searchQuery != "" && old(listing.hasMore) && !old(loading) && !old(SearchLoading());
              && (old(deps.fetchAhead) == Some(seen) ==> Snapshot() == old(Snapshot()))
              && (old(deps.fetchAhead) != Some(seen) && !due ==>
                    Snapshot() == old(Snapshot()).(deps := old(deps).(fetchAhead := Some(seen))))
              && (old(deps.fetchAhead) != Some(seen) && due ==>
                    SearchLoading() &&
                    Snapshot() == old(Snapshot()).(deps := old(deps).(fetchAhead := Some(seen)),
                                                   fetchAhead := Delaying(old(RequestFor(currentPrefix, true)))))
    {
      var seen := FetchAheadDeps(objectSearch.searchQuery, listing.hasMore, |listing.objects|);
      if deps.fetchAhead == Some(seen) {
        return;
      }
      deps := deps.(fetchAhead := Some(seen));
      if objectSearch.searchQuery == "" || !listing.hasMore || loading || SearchLoading() {
        return;
      }
      fetchAhead := Delaying(RequestFor(currentPrefix, true));
    }

    /**
     * The 300 ms delay of a fetch-ahead ends: its captured request is sent, or,
     * when its guard stopped it, the fetch-ahead ends.
     */
    method FetchAheadTimerFired()
      requires Valid() && fetchAhead.Delaying?
      modifies this
      ensures Valid()
      ensures old(fetchAhead.request).None? ==> !SearchLoading() && Snapshot() == old(Snapshot()).(fetchAhead := Idle)
      ensures old(fetchAhead.request).Some? ==>
                Snapshot() == old(Snapshot()).(loading := true, listing := old(listing).(objectsError := None),
                                               fetchAhead := Awaiting(old(fetchAhead.request.value)))
    {
      match fetchAhead.request {
        case None =>
          fetchAhead := Idle;
        case Some(call) =>
          loading := true;
          listing := listing.(objectsError := None);
          fetchAhead := Awaiting(call);
      }
    }

    // ----- handlers of the sites screen

    /** `handleSiteSelect`: open the site's bucket screen with cleared credentials, then load its access keys. */
    method HandleSiteSelect(site: SiteInfo, listed: Result<seq<string>, Thrown>, store: SecretStore)
      requires Valid() && viewMode == Sites
      modifies this
      ensures Valid()
      ensures Snapshot() == old(Snapshot()).(selectedSite := Some(site), viewMode := Buckets,
                                             bucketList := BucketsView([], None),
                                             keys := KeysAfterListing(profile, site.id, NoKeys, listed, store.items),
                                             reportedBreadcrumb := (Some(site.displayName), None))
    {
      selectedSite, viewMode, bucketList := Some(site), Buckets, BucketsView([], None);
      keys := keys.(selectedAccessKeyId := "", secretKey := "", secretSaved := false);
      reportedBreadcrumb := (Some(site.displayName), None);
      ghost var siteOpened := Snapshot();
      LoadAccessKeys(site.id, listed, store);
    }

    // ----- handlers of the buckets screen

    /** `handleBackToSites`. */
    method HandleBackToSites()
      requires Valid() && viewMode == Buckets
      modifies this
      ensures Valid()
      ensures Snapshot() == old(Snapshot()).(viewMode := Sites, selectedSite := None, keys := NoKeys,
                                             bucketList := BucketsView([], None), reportedBreadcrumb := (None, None))
    {
      viewMode := Sites;
      selectedSite := None;
      bucketList := BucketsView([], None);
      keys := NoKeys;
      reportedBreadcrumb := (None, None);
    }

    /** `handleAccessKeySelect`: clear the secret, flag and buckets, then activate the key's stored secret if it is non-empty. */
    method HandleAccessKeySelect(accessKeyId: string, store: SecretStore)
      requires Valid() && viewMode == Buckets
      modifies this
      ensures Valid()
      ensures var secret := if accessKeyId == "" then "" else StoredSecret(store.items, old(selectedSite).value.id, accessKeyId);
              Snapshot() == old(Snapshot()).(keys := old(keys).(selectedAccessKeyId := accessKeyId, secretKey := secret,
                                                                secretSaved := secret != ""),
                                             bucketList := BucketsView([], None))
    {
      keys := keys.(selectedAccessKeyId := accessKeyId, secretKey := "", secretSaved := false);
      bucketList := BucketsView([], None);
      if accessKeyId == "" || selectedSite.None? {
        return;
      }
      var savedSecret := GetObjectStorageSecret(store, selectedSite.value.id, accessKeyId);
      if savedSecret.Success? && savedSecret.value != "" {
        keys := keys.(secretKey := savedSecret.value, secretSaved := true);
      }
    }

    /** The secret input: typing replaces the secret and marks it unsaved. */
    method SecretInputChanged(value: string)
      requires Valid() && viewMode == Buckets && keys.selectedAccessKeyId != ""
      modifies this
      ensures Valid()
      ensures Snapshot() == old(Snapshot()).(keys := old(keys).(secretKey := value, secretSaved := false))
    {
      keys := keys.(secretKey := value, secretSaved := false);
    }

    /**
     * `handleSaveSecret`: store the secret; on success mark it saved, flag the
     * selected key only, and load the buckets; on failure only record the error.
     */
    method HandleSaveSecret(store: SecretStore, fault: Option<string>, listed: Result<seq<BucketInfo>, Thrown>)
      requires Valid() && viewMode == Buckets
      modifies this, store
      ensures Valid()
      ensures var ready := old(keys.selectedAccessKeyId != "" && keys.secretKey != "");
              var saved := old(keys).(secretSaved := true,
                                      accessKeys := MarkSaved(old(keys.accessKeys), old(keys.selectedAccessKeyId), true));
              && (!ready ==> Snapshot() == old(Snapshot()) && store.items == old(store.items))
              && (ready && fault.Some? ==>
                    Snapshot() == old(Snapshot()).(bucketList := old(bucketList).(bucketsError := Some(SaveSecretFailedMessage)))
                    && store.items == old(store.items))
              && (ready && fault.None? ==>
                    store.items == old(store.items)[(Service, ObjectStorageAccount(old(selectedSite).value.id,
                                                                                   old(keys.selectedAccessKeyId))) := old(keys.secretKey)])
              && (ready && fault.None? && profile == "" ==> Snapshot() == old(Snapshot()).(keys := saved))
              && (ready && fault.None? && profile != "" ==>
                    Snapshot() == old(Snapshot()).(keys := saved, loading := false, bucketList := BucketsAfter(listed)))
    {
      if selectedSite.None? || keys.selectedAccessKeyId == "" || keys.secretKey == "" {
        return;
      }
      var err := SaveObjectStorageSecret(store, selectedSite.value.id, keys.selectedAccessKeyId, keys.secretKey, fault);
      if err.Some? {
        bucketList := bucketList.(bucketsError := Some(SaveSecretFailedMessage));
        return;
      }
      keys := keys.(secretSaved := true, accessKeys := MarkSaved(keys.accessKeys, keys.selectedAccessKeyId, true));
      LoadBuckets(listed);
    }

    /**
     * `handleDeleteSecret`: remove the secret; on success clear the secret,
     * flag and buckets and unflag the selected key only; a failure (a missing
     * item included) changes nothing.
     */
    method HandleDeleteSecret(store: SecretStore, fault: Option<string>)
      requires Valid() && viewMode == Buckets
      modifies this, store
      ensures Valid()
      ensures var account := (Service, ObjectStorageAccount(old(selectedSite).value.id, old(keys.selectedAccessKeyId)));
              var deleted := old(keys.selectedAccessKeyId) != "" && fault.None? && account in old(store.items);
              && (deleted ==> store.items == old(store.items) - {account}
                              && Snapshot() == old(Snapshot()).(
                                   keys := KeySelection(MarkSaved(old(keys.accessKeys), old(keys.selectedAccessKeyId), false),
                                                        old(keys.selectedAccessKeyId), "", false),
                                   bucketList := old(bucketList).(buckets := [])))
              && (!deleted ==> store.items == old(store.items) && Snapshot() == old(Snapshot()))
    {
      if selectedSite.None? || keys.selectedAccessKeyId == "" {
        return;
      }
      var err := DeleteObjectStorageSecret(store, selectedSite.value.id, keys.selectedAccessKeyId, fault);
      if err.Some? {
        return;
      }
      keys := keys.(secretKey := "", secretSaved := false);
      bucketList := bucketList.(buckets := []);
      keys := keys.(accessKeys := MarkSaved(keys.accessKeys, keys.selectedAccessKeyId, false));
    }

    /** `handleBucketSelect`: open the bucket's objects screen at its root with an empty listing. */
    method HandleBucketSelect(bucket: BucketInfo)
      requires Valid() && viewMode == Buckets
      modifies this
      ensures Valid()
      ensures Snapshot() == old(Snapshot()).(selectedBucket := Some(bucket), viewMode := Objects,
                                             listing := Listing([], [], false, "", None), currentPrefix := "",
                                             reportedBreadcrumb := (old(SiteCaption()), Some(bucket.name)))
    {
      selectedBucket := Some(bucket);
      viewMode := Objects;
      listing := Listing([], [], false, "", None);
      currentPrefix := "";
      reportedBreadcrumb := (SiteCaption(), Some(bucket.name));
    }

    // ----- handlers of the objects screen

    /** `handleBackToBuckets`: the listing is reset, but the object search query is left as it was. */
    method HandleBackToBuckets()
      requires Valid() && viewMode == Objects
      modifies this
      ensures Valid()
      ensures objectSearch.searchQuery == old(objectSearch.searchQuery)
      ensures Snapshot() == old(Snapshot()).(viewMode := Buckets, selectedBucket := None,
                                             listing := Listing([], [], false, "", None), currentPrefix := "",
                                             reportedBreadcrumb := (old(SiteCaption()), None))
    {
      viewMode := Buckets;
      selectedBucket := None;
      listing := Listing([], [], false, "", None);
      currentPrefix := "";
      reportedBreadcrumb := (SiteCaption(), None);
    }

    /** `handlePrefixClick`: enter the folder with an empty listing and list it from its first page. */
    method HandlePrefixClick(prefix: string)
      requires Valid() && viewMode == Objects
      modifies this
      ensures Valid()
      ensures var request := old(RequestFor(prefix, false));
              var cleared := old(listing).(objects := [], prefixes := [], nextToken := "", hasMore := false);
              && (request.None? ==> Snapshot() == old(Snapshot()).(currentPrefix := prefix, listing := cleared))
              && (request.Some? ==>
                    Snapshot() == old(Snapshot()).(currentPrefix := prefix, listing := cleared.(objectsError := None),
                                                   loading := true,
                                                   inFlight := old(inFlight) + [PendingList(request.value, false)]))
    {
      currentPrefix := prefix;
      listing := listing.(objects := [], prefixes := [], nextToken := "", hasMore := false);
      LoadObjects(prefix, false);
    }

    /** `handleNavigateUp`: as a folder click on the parent prefix. */
    method HandleNavigateUp()
      requires Valid() && viewMode == Objects
      modifies this
      ensures Valid()
      ensures var newPrefix := NavigateUpPrefix(old(currentPrefix));
              var request := old(RequestFor(newPrefix, false));
              var cleared := old(listing).(objects := [], prefixes := [], nextToken := "", hasMore := false);
              && (request.None? ==> Snapshot() == old(Snapshot()).(currentPrefix := newPrefix, listing := cleared))
              && (request.Some? ==>
                    Snapshot() == old(Snapshot()).(currentPrefix := newPrefix, listing := cleared.(objectsError := None),
                                                   loading := true,
                                                   inFlight := old(inFlight) + [PendingList(request.value, false)]))
    {
      var newPrefix := NavigateUpPrefix(currentPrefix);
      currentPrefix := newPrefix;
      listing := listing.(objects := [], prefixes := [], nextToken := "", hasMore := false);
      LoadObjects(newPrefix, false);
    }

    /** The "load more" button: disabled while loading, otherwise the next page of the current folder. */
    method HandleLoadMore()
      requires Valid() && viewMode == Objects
      modifies this
      ensures Valid()
      ensures old(loading) || old(RequestFor(currentPrefix, true)).None? ==> Snapshot() == old(Snapshot())
      ensures !old(loading) && old(RequestFor(currentPrefix, true)).Some? ==>
                Snapshot() == old(Snapshot()).(loading := true, listing := old(listing).(objectsError := None),
                                               inFlight := old(inFlight) + [PendingList(old(RequestFor(currentPrefix, true)).value, true)])
    {
      if !loading {
        LoadObjects(currentPrefix, true);
      }
    }

    /** `handleGlobalReload`: reload what the current screen shows. */
    method HandleGlobalReload(sitesListed: Result<seq<SiteInfo>, Thrown>, bucketsListed: Result<seq<BucketInfo>, Thrown>)
      requires Valid()
      modifies this
      ensures Valid()
      ensures old(viewMode) == Sites && profile != "" ==>
                Snapshot() == old(Snapshot()).(sites := if sitesListed.Success? then sitesListed.value else [], loading := false)
      ensures old(viewMode) == Buckets && old(profile != "" && keys.selectedAccessKeyId != "" && keys.secretKey != "") ==>
                Snapshot() == old(Snapshot()).(loading := false, bucketList := BucketsAfter(bucketsListed))
      ensures old(viewMode) == Objects && old(RequestFor(currentPrefix, false)).Some? ==>
                Snapshot() == old(Snapshot()).(loading := true, listing := old(listing).(objectsError := None),
                                               inFlight := old(inFlight) + [PendingList(old(RequestFor(currentPrefix, false)).value, false)])
      ensures (old(viewMode) == Sites && profile == "")
              || (old(viewMode) == Buckets && old(profile == "" || keys.selectedAccessKeyId == "" || keys.secretKey == ""))
              || (old(viewMode) == Objects && old(RequestFor(currentPrefix, false)).None?) ==>
                Snapshot() == old(Snapshot())
    {
      match viewMode {
        case Sites => LoadSites(sitesListed);
        case Buckets => LoadBuckets(bucketsListed);
        case Objects => LoadObjects(currentPrefix, false);
      }
    }

    /** `handlePreview`: open the viewer its preview type selects. */
    method HandlePreview(obj: Api.ObjectInfo)
      requires Valid() && viewMode == Objects
      modifies this
      ensures Valid()
      ensures previewType == Some(JsonLines) <==> IsJsonLinesKey(obj.key)
      ensures previewType == Some(PlainText) <==> !IsJsonLinesKey(obj.key) && (IsReadme(LastPiece(obj.key)) || HasTextExtension(obj.key))
      ensures Snapshot() == old(Snapshot()).(previewing := Some(obj), previewType := previewType)
    {
      var t := GetPreviewType(obj.key);
      previewType := t;
      previewing := Some(obj);
    }

    /** A preview's close button. */
    method ClosePreview()
      requires Valid()
      modifies this
      ensures Valid()
      ensures Snapshot() == old(Snapshot()).(previewing := None, previewType := None)
    {
      previewing := None;
      previewType := None;
    }

    /**
     * `handleDownload`: asks the backend to save the object under its file
     * name; `outcome` is what the call threw, if anything. Only a failure
     * other than a cancelled dialog is shown.
     */
    method HandleDownload(obj: Api.ObjectInfo, outcome: Option<Thrown>) returns (request: Option<AppRules.DownloadRequest>)
      requires Valid() && viewMode == Objects
      modifies this
      ensures Valid()
      ensures request == Some(AppRules.DownloadRequest(old(selectedSite).value.endpoint, old(keys).selectedAccessKeyId,
                                                       old(keys).secretKey, old(selectedBucket).value.name, obj.key,
                                                       DownloadFileName(obj.key)))
      ensures outcome.None? || DownloadErrorMessage(outcome.value).None? ==> Snapshot() == old(Snapshot())
      ensures outcome.Some? && DownloadErrorMessage(outcome.value).Some? ==>
                Snapshot() == old(Snapshot()).(listing := old(listing).(objectsError := DownloadErrorMessage(outcome.value)))
    {
      var fileName := DownloadFileName(obj.key);
      request := Some(AppRules.DownloadRequest(selectedSite.value.endpoint, keys.selectedAccessKeyId, keys.secretKey,
                                               selectedBucket.value.name, obj.key, fileName));
      if outcome.Some? {
        var message := DownloadErrorMessage(outcome.value);
        if message.Some? {
          listing := listing.(objectsError := message);
        }
      }
    }
  }
}
