/**
 * `ListObjects` of internal/sakura/objectstorage.go: one S3 ListObjectsV2
 * call with delimiter "/", and the conversion of the SDK's answer into the
 * result handed to the frontend. The SDK call itself is a parameter.
 */
module ObjectStorageApi {
  import opened Wrappers

  newtype int32 = x: int | -0x8000_0000 <= x < 0x8000_0000
  newtype int64 = x: int | -0x8000_0000_0000_0000 <= x < 0x8000_0000_0000_0000

  const Delimiter: string := "/"
  const Region: string := "jp-north-1"

  /** The S3 client configuration `ListObjects` builds. */
  datatype ClientConfig = ClientConfig(region: string, accessKey: string, secretKey: string,
                                       baseEndpoint: string, usePathStyle: bool)

  /** `s3.ListObjectsV2Input`; an absent optional field is `None`. */
  datatype ListObjectsV2Input = ListObjectsV2Input(bucket: string, delimiter: string, prefix: Option<string>,
                                                   continuationToken: Option<string>, maxKeys: Option<int32>)

  /** One entry of the SDK's `Contents`; `lastModified` is already rendered as RFC 3339 text. */
  datatype SdkObject = SdkObject(key: Option<string>, size: Option<int64>, lastModified: Option<string>,
                                 storageClass: string)
  datatype SdkCommonPrefix = SdkCommonPrefix(prefix: Option<string>)
  datatype ListObjectsV2Output = ListObjectsV2Output(contents: seq<SdkObject>, commonPrefixes: seq<SdkCommonPrefix>,
                                                     nextContinuationToken: Option<string>, isTruncated: Option<bool>)

  datatype ObjectInfo = ObjectInfo(key: string, size: int64, lastModified: string, storageClass: string)
  datatype ListObjectsResult = ListObjectsResult(objects: seq<ObjectInfo>, prefixes: seq<string>,
                                                 isTruncated: bool, nextToken: string)

  /** The SDK operation: what the storage service answers for a request from a client. */
  type ListObjectsV2Call = (ClientConfig, ListObjectsV2Input) -> Result<ListObjectsV2Output, string>

  function Config(endpoint: string, accessKey: string, secretKey: string): (c: ClientConfig)
    ensures c.region == Region && c.usePathStyle && c.baseEndpoint == endpoint
    ensures c.accessKey == accessKey && c.secretKey == secretKey
  {
    ClientConfig(Region, accessKey, secretKey, endpoint, true)
  }

  /** The request: delimiter always "/", each optional field set only when it carries a value. */
  function BuildInput(bucketName: string, prefix: string, continuationToken: string, maxKeys: int32): (input: ListObjectsV2Input)
    ensures input.bucket == bucketName && input.delimiter == "/"
    ensures input.prefix.Some? <==> prefix != ""
    ensures input.prefix.Some? ==> input.prefix.value == prefix
    ensures input.continuationToken.Some? <==> continuationToken != ""
    ensures input.continuationToken.Some? ==> input.continuationToken.value == continuationToken
    ensures input.maxKeys.Some? <==> maxKeys > 0
    ensures input.maxKeys.Some? ==> input.maxKeys.value == maxKeys
  {
    ListObjectsV2Input(bucketName, Delimiter,
                       if prefix != "" then Some(prefix) else None,
                       if continuationToken != "" then Some(continuationToken) else None,
                       if maxKeys > 0 then Some(maxKeys) else None)
  }

  /** One content entry as the frontend sees it: absent fields become "" or 0. */
  function ToObjectInfo(obj: SdkObject): (info: ObjectInfo)
    ensures info.key == (if obj.key.Some? then obj.key.value else "")
    ensures info.size == (if obj.size.Some? then obj.size.value else 0)
    ensures obj.lastModified.None? ==> info.lastModified == ""
    ensures obj.lastModified.Some? ==> info.lastModified == obj.lastModified.value
    ensures obj.storageClass == "" ==> info.storageClass == ""
    ensures info.storageClass == obj.storageClass
  {
    var lastModified := if obj.lastModified.Some? then obj.lastModified.value else "";
    var storageClass := if obj.storageClass != "" then obj.storageClass else "";
    ObjectInfo(obj.key.GetOr(""), obj.size.GetOr(0), lastModified, storageClass)
  }

  /** The conversion loops: one `ObjectInfo` per content entry and one string per common prefix, in order. */
  method ConvertOutput(output: ListObjectsV2Output) returns (result: ListObjectsResult)
    ensures |result.objects| == |output.contents|
    ensures forall i :: 0 <= i < |output.contents| ==> result.objects[i] == ToObjectInfo(output.contents[i])
    ensures |result.prefixes| == |output.commonPrefixes|
    ensures forall i :: 0 <= i < |output.commonPrefixes| ==> result.prefixes[i] == output.commonPrefixes[i].prefix.GetOr("")
    ensures result.nextToken == (if output.nextContinuationToken.Some? then output.nextContinuationToken.value else "")
    ensures result.isTruncated == (output.isTruncated == Some(true))
  {
    var objects: seq<ObjectInfo> := [];
    for i := 0 to |output.contents|
      invariant |objects| == i
      invariant forall j :: 0 <= j < i ==> objects[j] == ToObjectInfo(output.contents[j])
    {
      objects := objects + [ToObjectInfo(output.contents[i])];
    }
    var prefixes: seq<string> := [];
    for i := 0 to |output.commonPrefixes|
      invariant |prefixes| == i
      invariant forall j :: 0 <= j < i ==> prefixes[j] == output.commonPrefixes[j].prefix.GetOr("")
    {
      prefixes := prefixes + [output.commonPrefixes[i].prefix.GetOr("")];
    }
    var nextToken := "";
    if output.nextContinuationToken.Some? {
      nextToken := output.nextContinuationToken.value;
    }
    result := ListObjectsResult(objects, prefixes, output.isTruncated.GetOr(false), nextToken);
  }

  /**
   * `ListObjects`: sends `BuildInput(...)` through a client configured for the
   * endpoint and credentials; an SDK error comes back as the error, with no result.
   */
  method ListObjects(endpoint: string, accessKey: string, secretKey: string, bucketName: string, prefix: string,
                     continuationToken: string, maxKeys: int32, listObjectsV2: ListObjectsV2Call)
    returns (r: Result<ListObjectsResult, string>)
    ensures var answer := listObjectsV2(Config(endpoint, accessKey, secretKey), BuildInput(bucketName, prefix, continuationToken, maxKeys));
            && (answer.Failure? <==> r.Failure?)
            && (answer.Failure? ==> r.error == answer.error)
            && (answer.Success? ==>
                  && |r.value.objects| == |answer.value.contents|
                  && (forall i :: 0 <= i < |answer.value.contents| ==> r.value.objects[i] == ToObjectInfo(answer.value.contents[i]))
                  && |r.value.prefixes| == |answer.value.commonPrefixes|
                  && (forall i :: 0 <= i < |answer.value.commonPrefixes| ==>
                        r.value.prefixes[i] == answer.value.commonPrefixes[i].prefix.GetOr(""))
                  && r.value.isTruncated == (answer.value.isTruncated == Some(true))
                  && r.value.nextToken == answer.value.nextContinuationToken.GetOr(""))
  {
    var cfg := Config(endpoint, accessKey, secretKey);
    var input := BuildInput(bucketName, prefix, continuationToken, maxKeys);
    var output := listObjectsV2(cfg, input);
    if output.Failure? {
      return Failure(output.error);
    }
    var converted := ConvertOutput(output.value);
    r := Success(converted);
  }
}
