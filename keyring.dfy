/**
 * The credential namespace kept in the operating system's keyring
 * (internal/sakura/keyring.go). Every secret lives under the service
 * "sakpilot"; the account name encodes what the secret is for:
 * "objectstorage/<site>/<access key>" or "containerregistry/<registry>/<user>".
 * The keyring itself is a class holding a map from (service, account) to secret.
 */
module Keyring {
  import opened Wrappers
  import opened Text

  const Service: string := "sakpilot"
  const ObjectStoragePrefix: string := "objectstorage/"
  const ContainerRegistryPrefix: string := "containerregistry/"

  /** What the keyring library reports: a missing item, or a failure of the platform store. */
  datatype KeyringError = NotFound | BackendError(message: string)

  /** The error a store failure `fault` is reported as. */
  function AsBackendError(fault: Option<string>): Option<KeyringError> {
    match fault
    case None => None
    case Some(m) => Some(BackendError(m))
  }

  function ObjectStorageAccount(siteId: string, accessKeyId: string): string {
    ObjectStoragePrefix + siteId + "/" + accessKeyId
  }

  function ContainerRegistryAccount(registryId: string, userName: string): string {
    ContainerRegistryPrefix + registryId + "/" + userName
  }

  /** Reading an account from the keyring's contents. */
  function Lookup(items: map<(string, string), string>, account: string): (r: Result<string, KeyringError>)
    ensures r.Success? <==> (Service, account) in items
    ensures r.Success? ==> r.value == items[(Service, account)]
    ensures r.Failure? ==> r.error == NotFound
  {
    if (Service, account) in items then Success(items[(Service, account)]) else Failure(NotFound)
  }

  /** The platform keyring (an external library; its failures are injected as `fault`). */
  class SecretStore {
    var items: map<(string, string), string>

    constructor (initial: map<(string, string), string>)
      ensures items == initial
    {
      items := initial;
    }

    /** `keyring.Set`: overwrites any earlier secret for the pair. */
    method Set(service: string, account: string, secret: string, fault: Option<string>)
      returns (err: Option<KeyringError>)
      modifies this
      ensures fault.Some? ==> err == Some(BackendError(fault.value)) && items == old(items)
      ensures fault.None? ==> err == None && items == old(items)[(service, account) := secret]
    {
      if fault.Some? {
        err := Some(BackendError(fault.value));
      } else {
        items := items[(service, account) := secret];
        err := None;
      }
    }

    /** `keyring.Delete`: deleting an absent item is reported as `NotFound`. */
    method Delete(service: string, account: string, fault: Option<string>)
      returns (err: Option<KeyringError>)
      modifies this
      ensures fault.Some? ==> err == Some(BackendError(fault.value)) && items == old(items)
      ensures fault.None? && (service, account) !in old(items) ==> err == Some(NotFound) && items == old(items)
      ensures fault.None? && (service, account) in old(items) ==>
                err == None && items == old(items) - {(service, account)}
    {
      if fault.Some? {
        err := Some(BackendError(fault.value));
      } else if (service, account) !in items {
        err := Some(NotFound);
      } else {
        items := items - {(service, account)};
        err := None;
      }
    }
  }

  method SaveObjectStorageSecret(store: SecretStore, siteId: string, accessKeyId: string, secretKey: string,
                                 fault: Option<string>)
    returns (err: Option<KeyringError>)
    modifies store
    ensures err == AsBackendError(fault)
    ensures fault.None? ==> GetObjectStorageSecret(store, siteId, accessKeyId) == Success(secretKey)
    ensures fault.None? ==> store.items == old(store.items)[(Service, ObjectStorageAccount(siteId, accessKeyId)) := secretKey]
    ensures fault.Some? ==> store.items == old(store.items)
  {
    err := store.Set(Service, ObjectStorageAccount(siteId, accessKeyId), secretKey, fault);
  }

  function GetObjectStorageSecret(store: SecretStore, siteId: string, accessKeyId: string): (r: Result<string, KeyringError>)
    reads store
    ensures r == Lookup(store.items, ObjectStorageAccount(siteId, accessKeyId))
  {
    Lookup(store.items, ObjectStorageAccount(siteId, accessKeyId))
  }

  method DeleteObjectStorageSecret(store: SecretStore, siteId: string, accessKeyId: string, fault: Option<string>)
    returns (err: Option<KeyringError>)
    modifies store
    ensures err == None ==> !HasObjectStorageSecret(store, siteId, accessKeyId)
    ensures err == None <==> fault.None? && old(HasObjectStorageSecret(store, siteId, accessKeyId))
    ensures err == None ==> store.items == old(store.items) - {(Service, ObjectStorageAccount(siteId, accessKeyId))}
    ensures err != None ==> store.items == old(store.items)
  {
    err := store.Delete(Service, ObjectStorageAccount(siteId, accessKeyId), fault);
  }

  /** A secret exists exactly when reading it does not fail; reading changes nothing. */
  function HasObjectStorageSecret(store: SecretStore, siteId: string, accessKeyId: string): (r: bool)
    reads store
    ensures r <==> (Service, ObjectStorageAccount(siteId, accessKeyId)) in store.items
  {
    GetObjectStorageSecret(store, siteId, accessKeyId).Success?
  }

  method SaveContainerRegistrySecret(store: SecretStore, registryId: string, userName: string, password: string,
                                     fault: Option<string>)
    returns (err: Option<KeyringError>)
    modifies store
    ensures err == AsBackendError(fault)
    ensures fault.None? ==> GetContainerRegistrySecret(store, registryId, userName) == Success(password)
    ensures fault.None? ==> store.items == old(store.items)[(Service, ContainerRegistryAccount(registryId, userName)) := password]
    ensures fault.Some? ==> store.items == old(store.items)
  {
    err := store.Set(Service, ContainerRegistryAccount(registryId, userName), password, fault);
  }

  function GetContainerRegistrySecret(store: SecretStore, registryId: string, userName: string): (r: Result<string, KeyringError>)
    reads store
    ensures r == Lookup(store.items, ContainerRegistryAccount(registryId, userName))
  {
    Lookup(store.items, ContainerRegistryAccount(registryId, userName))
  }

  method DeleteContainerRegistrySecret(store: SecretStore, registryId: string, userName: string, fault: Option<string>)
    returns (err: Option<KeyringError>)
    modifies store
    ensures err == None ==> !HasContainerRegistrySecret(store, registryId, userName)
    ensures err == None <==> fault.None? && old(HasContainerRegistrySecret(store, registryId, userName))
    ensures err == None ==> store.items == old(store.items) - {(Service, ContainerRegistryAccount(registryId, userName))}
    ensures err != None ==> store.items == old(store.items)
  {
    err := store.Delete(Service, ContainerRegistryAccount(registryId, userName), fault);
  }

  function HasContainerRegistrySecret(store: SecretStore, registryId: string, userName: string): (r: bool)
    reads store
    ensures r <==> (Service, ContainerRegistryAccount(registryId, userName)) in store.items
  {
    GetContainerRegistrySecret(store, registryId, userName).Success?
  }

  /** Every Object Storage account name is in the "objectstorage/" namespace. */
  lemma ObjectStorageAccountShape(siteId: string, accessKeyId: string)
    ensures StartsWith(ObjectStorageAccount(siteId, accessKeyId), "objectstorage/")
    ensures EndsWith(ObjectStorageAccount(siteId, accessKeyId), "/" + accessKeyId)
  {
    var a := ObjectStorageAccount(siteId, accessKeyId);
    assert a == "objectstorage/" + (siteId + "/" + accessKeyId);
    assert a == ("objectstorage/" + siteId) + ("/" + accessKeyId);
  }

  /** Two names of the form `x + "/" + y` agree only piecewise when the first pieces have no '/'. */
  lemma SlashPairInjective(a: string, b: string, c: string, e: string)
    requires '/' !in a && '/' !in c
    requires a + "/" + b == c + "/" + e
    ensures a == c && b == e
  {
    var s := a + "/" + b;
    FirstSlash(a, b);
    FirstSlash(c, e);
    assert |a| == |c|;
    assert a == s[..|a|] == c;
    assert b == s[|a| + 1..] == e;
  }

  lemma FirstSlash(a: string, b: string)
    requires '/' !in a
    ensures (a + "/" + b)[|a|] == '/'
    ensures forall j :: 0 <= j < |a| ==> (a + "/" + b)[j] != '/'
  {
  }

  /** While site ids contain no '/', distinct (site, key) pairs get distinct accounts. */
  lemma ObjectStorageAccountInjective(s1: string, k1: string, s2: string, k2: string)
    requires '/' !in s1 && '/' !in s2
    requires ObjectStorageAccount(s1, k1) == ObjectStorageAccount(s2, k2)
    ensures s1 == s2 && k1 == k2
  {
    var a1 := ObjectStorageAccount(s1, k1);
    var a2 := ObjectStorageAccount(s2, k2);
    var n := |ObjectStoragePrefix|;
    assert a1[n..] == s1 + "/" + k1;
    assert a2[n..] == s2 + "/" + k2;
    SlashPairInjective(s1, k1, s2, k2);
  }

  /** Without that condition the naming scheme collides. */
  lemma ObjectStorageAccountCollision()
    ensures ObjectStorageAccount("a/b", "c") == ObjectStorageAccount("a", "b/c")
  {
  }

  /** An Object Storage account can never be a Container Registry account. */
  lemma AccountNamespacesDisjoint(siteId: string, accessKeyId: string, registryId: string, userName: string)
    ensures ObjectStorageAccount(siteId, accessKeyId) != ContainerRegistryAccount(registryId, userName)
  {
    var a := ObjectStorageAccount(siteId, accessKeyId);
    var b := ContainerRegistryAccount(registryId, userName);
    assert a[0] == 'o';
    assert b[0] == 'c';
  }

  /** Saving one (site, key) secret leaves every other (site, key) lookup as it was. */
  lemma SaveObjectStorageIsolated(items: map<(string, string), string>, siteId: string, accessKeyId: string,
                                  secret: string, otherSite: string, otherKey: string)
    requires '/' !in siteId && '/' !in otherSite
    requires (siteId, accessKeyId) != (otherSite, otherKey)
    ensures Lookup(items[(Service, ObjectStorageAccount(siteId, accessKeyId)) := secret],
                   ObjectStorageAccount(otherSite, otherKey))
         == Lookup(items, ObjectStorageAccount(otherSite, otherKey))
  {
    if ObjectStorageAccount(siteId, accessKeyId) == ObjectStorageAccount(otherSite, otherKey) {
      ObjectStorageAccountInjective(siteId, accessKeyId, otherSite, otherKey);
    }
  }

  /** Saving a Container Registry password never changes an Object Storage lookup. */
  lemma SaveContainerRegistryKeepsObjectStorage(items: map<(string, string), string>, registryId: string,
                                                userName: string, password: string, siteId: string, accessKeyId: string)
    ensures Lookup(items[(Service, ContainerRegistryAccount(registryId, userName)) := password],
                   ObjectStorageAccount(siteId, accessKeyId))
         == Lookup(items, ObjectStorageAccount(siteId, accessKeyId))
  {
    AccountNamespacesDisjoint(siteId, accessKeyId, registryId, userName);
  }
}
