/**
 * The container-registry detail pane (frontend/src/components/ContainerRegistryDetail.tsx):
 * the registry's users with their saved-password flags, the active
 * credentials that unlock the image list, and the image and tags views.
 * Every handler, loader and effect is one atomic step; backend answers are
 * parameters and the keyring is a `SecretStore`.
 */
module RegistryDetail {
  import opened Wrappers
  import opened Rejections
  import opened Keyring

  /** The permission whose users can list images. */
  const AllPermission: string := "all"

  datatype RegistryInfo = RegistryInfo(id: string, fqdn: string)
  datatype UserInfo = UserInfo(userName: string, permission: string)
  /** A user of the registry, with whether the keyring holds its password. */
  datatype UserEntry = UserEntry(userName: string, permission: string, hasSavedSecret: bool)
  datatype RegistryImage = RegistryImage(name: string)
  datatype RegistryTag = RegistryTag(name: string, size: int, digest: string)
  datatype ViewMode = Info | Tags

  /** `activeUserName` and `activePassword`. */
  datatype Credentials = Credentials(userName: Option<string>, password: Option<string>)

  const NoCredentials: Credentials := Credentials(None, None)

  /** `activeUserName && activePassword`: both set and non-empty. */
  predicate Usable(c: Credentials) {
    c.userName.Some? && c.userName.value != "" && c.password.Some? && c.password.value != ""
  }

  /** A listing pane: its entries and its error message. */
  datatype Pane<T> = Pane(items: seq<T>, error: Option<string>)

  /** The arguments of a `ListContainerRegistryImages` call, or of a `GetContainerRegistryImageTags` call for `image`. */
  datatype RegistryCall = RegistryCall(fqdn: string, userName: string, password: string, image: Option<string>)

  /** The password the keyring holds for the user, or "" when it holds none. */
  function StoredPassword(items: map<(string, string), string>, registryId: string, userName: string): (password: string)
    ensures (Service, ContainerRegistryAccount(registryId, userName)) !in items ==> password == ""
    ensures (Service, ContainerRegistryAccount(registryId, userName)) in items ==>
              password == items[(Service, ContainerRegistryAccount(registryId, userName))]
  {
    match Lookup(items, ContainerRegistryAccount(registryId, userName))
    case Success(p) => p
    case Failure(_) => ""
  }

  /** In `loadUsers`: each listed user with whether its password is saved. */
  function WithSecretFlags(registryId: string, listed: seq<UserInfo>, items: map<(string, string), string>): (users: seq<UserEntry>)
    ensures |users| == |listed|
    ensures forall i :: 0 <= i < |listed| ==>
              users[i].userName == listed[i].userName && users[i].permission == listed[i].permission
    ensures forall i :: 0 <= i < |listed| ==>
              (users[i].hasSavedSecret <==> (Service, ContainerRegistryAccount(registryId, listed[i].userName)) in items)
  {
    seq(|listed|, i requires 0 <= i < |listed| =>
          UserEntry(listed[i].userName, listed[i].permission,
                    Lookup(items, ContainerRegistryAccount(registryId, listed[i].userName)).Success?))
  }

  predicate CanActivate(u: UserEntry) {
    u.permission == AllPermission && u.hasSavedSecret
  }

  /** `usersWithSecret.find(u => u.permission === 'all' && u.hasSavedSecret)`, as an index. */
  function FirstActivatable(users: seq<UserEntry>): (r: Option<nat>)
    ensures r.Some? ==> r.value < |users| && CanActivate(users[r.value])
    ensures r.Some? ==> forall j :: 0 <= j < r.value ==> !CanActivate(users[j])
    ensures r.None? ==> forall j :: 0 <= j < |users| ==> !CanActivate(users[j])
    decreases |users|
  {
    if users == [] then None
    else if CanActivate(users[0]) then Some(0)
    else
      match FirstActivatable(users[1..])
      case None => None
      case Some(i) => Some(i + 1)
  }

  /**
   * The credentials `loadUsers` makes active, if any: the first
   * user with the "all" permission and a saved password, together with that
   * password, and only when the password is non-empty.
   */
  function Activation(registryId: string, users: seq<UserEntry>, items: map<(string, string), string>): (r: Option<Credentials>)
    ensures FirstActivatable(users).None? ==> r.None?
    ensures FirstActivatable(users).Some? ==>
              var name := users[FirstActivatable(users).value].userName;
              var password := StoredPassword(items, registryId, name);
              && (password == "" ==> r.None?)
              && (password != "" ==> r == Some(Credentials(Some(name), Some(password))))
  {
    match FirstActivatable(users)
    case None => None
    case Some(i) =>
      var password := StoredPassword(items, registryId, users[i].userName);
      if password != "" then Some(Credentials(Some(users[i].userName), Some(password))) else None
  }

  /** `users.map(u => u.userName === userName ? { ...u, hasSavedSecret: flag } : u)`. */
  function MarkUserSaved(users: seq<UserEntry>, userName: string, flag: bool): (r: seq<UserEntry>)
    ensures |r| == |users|
    ensures forall i :: 0 <= i < |users| ==> r[i].userName == users[i].userName && r[i].permission == users[i].permission
    ensures forall i :: 0 <= i < |users| && users[i].userName == userName ==> r[i].hasSavedSecret == flag
    ensures forall i :: 0 <= i < |users| && users[i].userName != userName ==> r[i] == users[i]
  {
    seq(|users|, i requires 0 <= i < |users| => if users[i].userName == userName then users[i].(hasSavedSecret := flag) else users[i])
  }

  /** Saving and then deleting a user's password leaves the flags as deleting alone would. */
  lemma SaveThenDeleteFlags(users: seq<UserEntry>, userName: string)
    ensures MarkUserSaved(MarkUserSaved(users, userName, true), userName, false) == MarkUserSaved(users, userName, false)
  {
    var a := MarkUserSaved(MarkUserSaved(users, userName, true), userName, false);
    var b := MarkUserSaved(users, userName, false);
    assert |a| == |b|;
    forall i | 0 <= i < |a| ensures a[i] == b[i] {
    }
  }

  /** A user whose password was just saved is one the next `loadUsers` may activate, unless an earlier one is. */
  lemma SavedAllUserIsActivatable(users: seq<UserEntry>, i: nat)
    requires i < |users| && users[i].permission == AllPermission
    ensures FirstActivatable(MarkUserSaved(users, users[i].userName, true)).Some?
    ensures FirstActivatable(MarkUserSaved(users, users[i].userName, true)).value <= i
  {
    var r := MarkUserSaved(users, users[i].userName, true);
    assert CanActivate(r[i]);
  }

  /** In `loadImages` and `loadTags`: a listing's entries, or none and the error message. */
  function PaneAfter<T>(listed: Result<seq<T>, Thrown>): (p: Pane<T>)
    ensures listed.Success? ==> p.items == listed.value && p.error.None?
    ensures listed.Failure? ==> p.items == [] && p.error == Some(ErrorText(listed.error))
  {
    match listed
    case Success(list) => Pane(list, None)
    case Failure(e) => Pane([], Some(ErrorText(e)))
  }

  /** The pane's state as one value. */
  datatype Model = Model(users: seq<UserEntry>, selectedUser: Option<string>, password: string, active: Credentials,
                         images: Pane<RegistryImage>, viewMode: ViewMode, selectedImage: Option<string>,
                         tags: Pane<RegistryTag>, usersDeps: bool, imagesDeps: Option<Credentials>)

  class Detail {
    const profile: string
    const registry: RegistryInfo

    var users: seq<UserEntry>
    /** The user whose password field is open. */
    var selectedUser: Option<string>
    var password: string
    var active: Credentials
    /** `images` and `imagesError`. */
    var images: Pane<RegistryImage>
    var viewMode: ViewMode
    var selectedImage: Option<string>
    /** `tags` and `tagsError`. */
    var tags: Pane<RegistryTag>
    /** Whether the users effect has run; its dependencies are fixed for the pane's life. */
    var usersDeps: bool
    /** The credentials the images effect saw when it last ran. */
    var imagesDeps: Option<Credentials>

    function Snapshot(): Model
      reads this
    {
      Model(users, selectedUser, password, active, images, viewMode, selectedImage, tags, usersDeps, imagesDeps)
    }

    /**
     * The tags view has an image; a password is typed only into an open
     * field; the active user and password are set and cleared together.
     */
    predicate Valid()
      reads this
    {
      && (viewMode == Tags <==> selectedImage.Some?)
      && (selectedUser.None? ==> password == "")
      && (active.userName.Some? <==> active.password.Some?)
    }

    constructor (profile: string, registry: RegistryInfo)
      ensures Valid() && this.profile == profile && this.registry == registry
      ensures Snapshot() == Model([], None, "", NoCredentials, Pane([], None), Info, None, Pane([], None), false, None)
    {
      this.profile := profile;
      this.registry := registry;
      users, selectedUser, password, active := [], None, "", NoCredentials;
      images, viewMode, selectedImage, tags := Pane([], None), Info, None, Pane([], None);
      usersDeps, imagesDeps := false, None;
    }

    // ----- loaders

    /**
     * `loadUsers`: lists the users with their saved flags and activates the
     * first user with the "all" permission whose stored password is non-empty.
     * A failed listing changes nothing.
     */
    method LoadUsers(listed: Result<seq<UserInfo>, Thrown>, store: SecretStore)
      requires Valid()
      modifies this
      ensures Valid()
      ensures profile == "" || registry.id == "" || listed.Failure? ==> Snapshot() == old(Snapshot())
      ensures profile != "" && registry.id != "" && listed.Success? ==>
                var entries := WithSecretFlags(registry.id, listed.value, store.items);
                var activation := Activation(registry.id, entries, store.items);
                Snapshot() == old(Snapshot()).(users := entries,
                                               active := if activation.Some? then activation.value else old(active))
    {
      if profile == "" || registry.id == "" {
        return;
      }
      if listed.Failure? {
        return;
      }
      var usersWithSecret := WithSecretFlags(registry.id, listed.value, store.items);
      users := usersWithSecret;
      var savedAllUser := FirstActivatable(usersWithSecret);
      if savedAllUser.Some? {
        var name := usersWithSecret[savedAllUser.value].userName;
        var savedPassword := GetContainerRegistrySecret(store, registry.id, name);
        if savedPassword.Success? && savedPassword.value != "" {
          active := Credentials(Some(name), Some(savedPassword.value));
        }
      }
    }

    /** `loadImages`: needs usable credentials; records the images, or none and the error. Returns the call it made. */
    method LoadImages(listed: Result<seq<RegistryImage>, Thrown>) returns (call: Option<RegistryCall>)
      requires Valid()
      modifies this
      ensures Valid()
      ensures !old(Usable(active)) ==> call.None? && Snapshot() == old(Snapshot())
      ensures old(Usable(active)) ==>
                && call == Some(RegistryCall(registry.fqdn, old(active.userName.value), old(active.password.value), None))
                && Snapshot() == old(Snapshot()).(images := PaneAfter(listed))
    {
      if !Usable(active) {
        return None;
      }
      images := images.(error := None);
      call := Some(RegistryCall(registry.fqdn, active.userName.value, active.password.value, None));
      match listed {
        case Success(list) =>
          images := images.(items := list);
        case Failure(e) =>
          images := Pane([], Some(ErrorText(e)));
      }
    }

    /** `loadTags(imageName)`: the same guard and error handling for the image's tags. */
    method LoadTags(imageName: string, listed: Result<seq<RegistryTag>, Thrown>) returns (call: Option<RegistryCall>)
      requires Valid()
      modifies this
      ensures Valid()
      ensures !old(Usable(active)) ==> call.None? && Snapshot() == old(Snapshot())
      ensures old(Usable(active)) ==>
                && call == Some(RegistryCall(registry.fqdn, old(active.userName.value), old(active.password.value), Some(imageName)))
                && Snapshot() == old(Snapshot()).(tags := PaneAfter(listed))
    {
      if !Usable(active) {
        return None;
      }
      tags := tags.(error := None);
      call := Some(RegistryCall(registry.fqdn, active.userName.value, active.password.value, Some(imageName)));
      match listed {
        case Success(list) =>
          tags := tags.(items := list);
        case Failure(e) =>
          tags := Pane([], Some(ErrorText(e)));
      }
    }

    // ----- effects

    /** The mount effect: load the users once. */
    method UsersEffect(listed: Result<seq<UserInfo>, Thrown>, store: SecretStore)
      requires Valid()
      modifies this
      ensures Valid()
      ensures old(usersDeps) ==> Snapshot() == old(Snapshot())
      ensures !old(usersDeps) && (profile == "" || registry.id == "" || listed.Failure?) ==>
                Snapshot() == old(Snapshot()).(usersDeps := true)
      ensures !old(usersDeps) && profile != "" && registry.id != "" && listed.Success? ==>
                var entries := WithSecretFlags(registry.id, listed.value, store.items);
                var activation := Activation(registry.id, entries, store.items);
                Snapshot() == old(Snapshot()).(usersDeps := true, users := entries,
                                               active := if activation.Some? then activation.value else old(active))
    {
      if usersDeps {
        return;
      }
      usersDeps := true;
      LoadUsers(listed, store);
    }

    /** When the active credentials changed and are usable, load the images. */
    method ImagesEffect(listed: Result<seq<RegistryImage>, Thrown>) returns (call: Option<RegistryCall>)
      requires Valid()
      modifies this
      ensures Valid()
      ensures old(imagesDeps) == Some(old(active)) ==> call.None? && Snapshot() == old(Snapshot())
      ensures old(imagesDeps) != Some(old(active)) && !old(Usable(active)) ==>
                call.None? && Snapshot() == old(Snapshot()).(imagesDeps := Some(old(active)))
      ensures old(imagesDeps) != Some(old(active)) && old(Usable(active)) ==>
                && call == Some(RegistryCall(registry.fqdn, old(active.userName.value), old(active.password.value), None))
                && Snapshot() == old(Snapshot()).(imagesDeps := Some(old(active)), images := PaneAfter(listed))
    {
      if imagesDeps == Some(active) {
        return None;
      }
      imagesDeps := Some(active);
      call := None;
      if Usable(active) {
        call := LoadImages(listed);
      }
    }

    // ----- the users table

    /** The "set password" button opens the user's password field. */
    method StartPasswordEntry(userName: string)
      requires Valid()
      modifies this
      ensures Valid()
      ensures Snapshot() == old(Snapshot()).(selectedUser := Some(userName))
    {
      selectedUser := Some(userName);
    }

    method PasswordInputChanged(value: string)
      requires Valid() && selectedUser.Some?
      modifies this
      ensures Valid()
      ensures Snapshot() == old(Snapshot()).(password := value)
    {
      password := value;
    }

    /** The cancel button closes the field and drops what was typed. */
    method CancelPasswordEntry()
      requires Valid()
      modifies this
      ensures Valid()
      ensures Snapshot() == old(Snapshot()).(selectedUser := None, password := "")
    {
      selectedUser := None;
      password := "";
    }

    /**
     * `handleSavePassword(userName)` from the user's open field: an empty
     * password does nothing; a stored one flags that user only, becomes the
     * active credentials and closes the field; a failed store changes nothing.
     */
    method HandleSavePassword(userName: string, store: SecretStore, fault: Option<string>)
      requires Valid() && selectedUser == Some(userName)
      modifies this, store
      ensures Valid()
      ensures old(password) == "" || fault.Some? ==> Snapshot() == old(Snapshot()) && store.items == old(store.items)
      ensures old(password) != "" && fault.None? ==>
                && store.items == old(store.items)[(Service, ContainerRegistryAccount(registry.id, userName)) := old(password)]
                && Snapshot() == old(Snapshot()).(users := MarkUserSaved(old(users), userName, true),
                                                  active := Credentials(Some(userName), Some(old(password))),
                                                  selectedUser := None, password := "")
      ensures old(password) != "" && fault.None? && userName != "" ==> Usable(active)
    {
      if password == "" {
        return;
      }
      var err := SaveContainerRegistrySecret(store, registry.id, userName, password, fault);
      if err.Some? {
        return;
      }
      users := MarkUserSaved(users, userName, true);
      active := Credentials(Some(userName), Some(password));
      selectedUser := None;
      password := "";
    }

    /**
     * `handleDeletePassword(userName)`: on success the user is unflagged and,
     * when it was the active user, the active credentials and the images are
     * cleared; a failure (a missing item included) changes nothing.
     */
    method HandleDeletePassword(userName: string, store: SecretStore, fault: Option<string>)
      requires Valid()
      modifies this, store
      ensures Valid()
      ensures var account := (Service, ContainerRegistryAccount(registry.id, userName));
              var deleted := fault.None? && account in old(store.items);
              && (!deleted ==> Snapshot() == old(Snapshot()) && store.items == old(store.items))
              && (deleted ==> store.items == old(store.items) - {account})
              && (deleted && old(active.userName) == Some(userName) ==>
                    Snapshot() == old(Snapshot()).(users := MarkUserSaved(old(users), userName, false),
                                                   active := NoCredentials, images := old(images).(items := [])))
              && (deleted && old(active.userName) != Some(userName) ==>
                    Snapshot() == old(Snapshot()).(users := MarkUserSaved(old(users), userName, false)))
    {
      var err := DeleteContainerRegistrySecret(store, registry.id, userName, fault);
      if err.Some? {
        return;
      }
      users := MarkUserSaved(users, userName, false);
      if active.userName == Some(userName) {
        active := NoCredentials;
        images := images.(items := []);
      }
    }

    // ----- images and tags

    /** `handleImageClick`: open the image's tags view with no tags, then load them. */
    method HandleImageClick(imageName: string, listed: Result<seq<RegistryTag>, Thrown>) returns (call: Option<RegistryCall>)
      requires Valid() && viewMode == Info
      modifies this
      ensures Valid()
      ensures !old(Usable(active)) ==>
                call.None? && Snapshot() == old(Snapshot()).(selectedImage := Some(imageName), viewMode := Tags,
                                                             tags := old(tags).(items := []))
      ensures old(Usable(active)) ==>
                && call == Some(RegistryCall(registry.fqdn, old(active.userName.value), old(active.password.value), Some(imageName)))
                && Snapshot() == old(Snapshot()).(selectedImage := Some(imageName), viewMode := Tags,
                                                  tags := PaneAfter(listed))
    {
      selectedImage := Some(imageName);
      viewMode := Tags;
      tags := tags.(items := []);
      call := LoadTags(imageName, listed);
    }

    /** The reload button of the tags view: `loadTags(selectedImage)`. */
    method ReloadTags(listed: Result<seq<RegistryTag>, Thrown>) returns (call: Option<RegistryCall>)
      requires Valid() && viewMode == Tags
      modifies this
      ensures Valid()
      ensures !old(Usable(active)) ==> call.None? && Snapshot() == old(Snapshot())
      ensures old(Usable(active)) ==>
                && call == Some(RegistryCall(registry.fqdn, old(active.userName.value), old(active.password.value), old(selectedImage)))
                && Snapshot() == old(Snapshot()).(tags := PaneAfter(listed))
    {
      call := LoadTags(selectedImage.value, listed);
    }

    /** `handleBackToImages`: back to the info view with no image and no tags; the tags error is kept. */
    method HandleBackToImages()
      requires Valid() && viewMode == Tags
      modifies this
      ensures Valid()
      ensures Snapshot() == old(Snapshot()).(viewMode := Info, selectedImage := None, tags := old(tags).(items := []))
    {
      viewMode := Info;
      selectedImage := None;
      tags := tags.(items := []);
    }
  }
}
