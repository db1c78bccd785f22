/**
 * The selection rules of the desktop backend (app.go): the default profile
 * and zone, the save-dialog cancellation of an object download, and the
 * access-key rule shared by the Prometheus queries of a metrics storage.
 * Profile files, the API client, the save dialog and the HTTP calls are
 * parameters carrying their outcome.
 */
module AppRules {
  import opened Wrappers
  import opened Text

  const DefaultProfileName: string := "default"
  const FallbackZone: string := "is1a"
  const CancelledMessage: string := "cancelled"

  datatype ProfileInfo = ProfileInfo(name: string, isCurrent: bool)

  /**
   * `GetDefaultProfile`: the first profile marked current; otherwise the first
   * profile; "default" when there is none or the profile list cannot be read.
   */
  method GetDefaultProfile(listing: Result<seq<ProfileInfo>, string>) returns (name: string)
    ensures listing.Failure? ==> name == DefaultProfileName
    ensures listing.Success? && (exists i :: 0 <= i < |listing.value| && listing.value[i].isCurrent) ==>
              exists i :: 0 <= i < |listing.value| && listing.value[i].isCurrent && name == listing.value[i].name
                          && forall j :: 0 <= j < i ==> !listing.value[j].isCurrent
    ensures listing.Success? && (forall i :: 0 <= i < |listing.value| ==> !listing.value[i].isCurrent) ==>
              name == (if |listing.value| > 0 then listing.value[0].name else DefaultProfileName)
  {
    if listing.Failure? {
      return DefaultProfileName;
    }
    var profiles := listing.value;
    for k := 0 to |profiles|
      invariant forall j :: 0 <= j < k ==> !profiles[j].isCurrent
    {
      if profiles[k].isCurrent {
        return profiles[k].name;
      }
    }
    if |profiles| > 0 {
      return profiles[0].name;
    }
    return DefaultProfileName;
  }

  /** `GetDefaultZone`: the client's default zone, or "is1a" when no client can be built for the profile. */
  function GetDefaultZone(clientDefaultZone: Result<string, string>): (zone: string)
    ensures clientDefaultZone.Failure? ==> zone == FallbackZone
    ensures clientDefaultZone.Success? ==> zone == clientDefaultZone.value
  {
    match clientDefaultZone
    case Failure(_) => FallbackZone
    case Success(z) => z
  }

  /** What the object download needs besides the save path. */
  datatype DownloadRequest = DownloadRequest(endpoint: string, accessKey: string, secretKey: string,
                                             bucketName: string, key: string, defaultFileName: string)

  /** `sakura.DownloadObject`: writes the object to the path; its error, if any. */
  type Downloader = (DownloadRequest, string) -> Option<string>

  /**
   * `DownloadObjectStorageObject`: a dialog failure is returned as is; an empty
   * save path (the user closed the dialog) is the error "cancelled"; otherwise
   * the result of downloading to the chosen path.
   */
  function DownloadObjectStorageObject(req: DownloadRequest, savePath: Result<string, string>,
                                       download: Downloader): (err: Option<string>)
    ensures savePath.Failure? ==> err == Some(savePath.error)
    ensures savePath == Success("") ==> err == Some(CancelledMessage)
    ensures savePath.Success? && savePath.value != "" ==> err == download(req, savePath.value)
  {
    match savePath
    case Failure(e) => Some(e)
    case Success(path) =>
      if path == "" then Some(CancelledMessage) else download(req, path)
  }

  /** A cancelled dialog never reaches the downloader: any downloader gives the same answer. */
  lemma CancelledDownloadSkipsDownloader(req: DownloadRequest, d1: Downloader, d2: Downloader)
    ensures DownloadObjectStorageObject(req, Success(""), d1) == DownloadObjectStorageObject(req, Success(""), d2)
  {
  }

  datatype MetricsAccessKey = MetricsAccessKey(id: string, token: string)

  /** The token the Prometheus queries authenticate with: the first access key's. */
  function PrometheusToken(storageId: string, keys: seq<MetricsAccessKey>): (r: Result<string, string>)
    ensures r.Failure? <==> keys == []
    ensures r.Failure? ==> r.error == "no access keys found for storage " + storageId
    ensures r.Success? ==> r.value == keys[0].token
  {
    if |keys| == 0 then Failure("no access keys found for storage " + storageId)
    else Success(keys[0].token)
  }

  /**
   * The shape of `QueryMSPrometheusLabels`, `...Range`, `...Publishers` and
   * `...MetricsByPublisher`: client, storage detail and key list are fetched in
   * that order and the first failure is returned; then the query runs against
   * the storage's endpoint with the first key's token.
   */
  function MetricsQuery<T>(storageId: string, clientError: Option<string>, endpoint: Result<string, string>,
                           keys: Result<seq<MetricsAccessKey>, string>,
                           query: (string, string) -> Result<T, string>): (r: Result<T, string>)
    ensures clientError.Some? ==> r == Failure(clientError.value)
    ensures clientError.None? && endpoint.Failure? ==> r == Failure(endpoint.error)
    ensures clientError.None? && endpoint.Success? && keys.Failure? ==> r == Failure(keys.error)
    ensures clientError.None? && endpoint.Success? && keys.Success? && keys.value == [] ==>
              r == Failure("no access keys found for storage " + storageId)
    ensures clientError.None? && endpoint.Success? && keys.Success? && keys.value != [] ==>
              r == query(endpoint.value, keys.value[0].token)
  {
    if clientError.Some? then Failure(clientError.value)
    else if endpoint.Failure? then Failure(endpoint.error)
    else if keys.Failure? then Failure(keys.error)
    else
      match PrometheusToken(storageId, keys.value)
      case Failure(e) => Failure(e)
      case Success(token) => query(endpoint.value, token)
  }

  /** Only the first access key matters: key lists that agree on it give the same answer. */
  lemma MetricsQueryUsesFirstKeyOnly<T>(storageId: string, endpoint: string, k: MetricsAccessKey,
                                        rest1: seq<MetricsAccessKey>, rest2: seq<MetricsAccessKey>,
                                        query: (string, string) -> Result<T, string>)
    ensures MetricsQuery(storageId, None, Success(endpoint), Success([k] + rest1), query)
         == MetricsQuery(storageId, None, Success(endpoint), Success([k] + rest2), query)
  {
  }
}
