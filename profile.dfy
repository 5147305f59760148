/** The profile page: editing the username, signing out and deleting the
    account, and the purge of the application's data from the browser's
    key-value storage that sign-out and deletion perform. */
module Profile {
  import opened JsValues
  import opened UserSlice

  /** The keys removed whatever they hold. */
  const FixedKeys: seq<string> := ["token", "user", "habitStates", "habits", "persist:root"]

  /** Per-habit cached data is stored under these prefixes. */
  predicate HasAppPrefix(key: string) {
    StartsWith(key, "streakData-") || StartsWith(key, "habits-")
  }

  predicate ShouldRemove(key: string) {
    key in FixedKeys || HasAppPrefix(key)
  }

  /** The keys that remain after a purge, in storage order. */
  function Purged(keys: seq<string>): seq<string> {
    if |keys| == 0 then []
    else (if ShouldRemove(keys[0]) then [] else [keys[0]]) + Purged(keys[1..])
  }

  /** A key survives exactly when it was stored and is not application data. */
  lemma {:induction false} PurgedMembers(keys: seq<string>, k: string)
    ensures k in Purged(keys) <==> k in keys && !ShouldRemove(k)
  {
    if |keys| > 0 {
      PurgedMembers(keys[1..], k);
      assert keys == [keys[0]] + keys[1..];
    }
  }

  /** Purging twice is purging once. */
  lemma {:induction false} PurgeIdempotent(keys: seq<string>)
    ensures Purged(Purged(keys)) == Purged(keys)
  {
    if |keys| > 0 {
      PurgeIdempotent(keys[1..]);
      var p := Purged(keys);
      if !ShouldRemove(keys[0]) {
        assert p[0] == keys[0] && p[1..] == Purged(keys[1..]);
      } else {
        assert p == Purged(keys[1..]);
      }
    }
  }

  /** `keys` without the members of `removed`, in order. */
  function Without(keys: seq<string>, removed: set<string>): seq<string> {
    if |keys| == 0 then []
    else (if keys[0] in removed then [] else [keys[0]]) + Without(keys[1..], removed)
  }

  lemma {:induction false} WithoutMembers(keys: seq<string>, removed: set<string>, k: string)
    ensures k in Without(keys, removed) <==> k in keys && k !in removed
  {
    if |keys| > 0 {
      WithoutMembers(keys[1..], removed, k);
      assert keys == [keys[0]] + keys[1..];
    }
  }

  predicate Distinct(keys: seq<string>) {
    forall i, j :: 0 <= i < j < |keys| ==> keys[i] != keys[j]
  }

  lemma {:induction false} WithoutDistinct(keys: seq<string>, removed: set<string>)
    requires Distinct(keys)
    ensures Distinct(Without(keys, removed))
  {
    if |keys| > 0 {
      WithoutDistinct(keys[1..], removed);
      if keys[0] !in removed {
        WithoutMembers(keys[1..], removed, keys[0]);
        var rest := Without(keys[1..], removed);
        assert keys[0] !in keys[1..];
        forall j | 0 <= j < |rest| ensures rest[j] != keys[0] {
          assert rest[j] in rest;
        }
      }
    }
  }

  /** Removing one set and then another removes their union. */
  lemma {:induction false} WithoutTwice(keys: seq<string>, a: set<string>, b: set<string>)
    ensures Without(Without(keys, a), b) == Without(keys, a + b)
  {
    if |keys| > 0 {
      WithoutTwice(keys[1..], a, b);
      var w := Without(keys, a);
      if keys[0] !in a {
        assert w[0] == keys[0] && w[1..] == Without(keys[1..], a);
      } else {
        assert w == Without(keys[1..], a);
      }
    }
  }

  lemma {:induction false} WithoutNothing(keys: seq<string>)
    ensures Without(keys, {}) == keys
  {
    if |keys| > 0 {
      WithoutNothing(keys[1..]);
      assert keys == [keys[0]] + keys[1..];
    }
  }

  /** Removing a set that picks out exactly the application keys is the purge. */
  lemma {:induction false} WithoutIsPurge(keys: seq<string>, removed: set<string>)
    requires forall k :: k in keys ==> (k in removed <==> ShouldRemove(k))
    ensures Without(keys, removed) == Purged(keys)
  {
    if |keys| > 0 {
      assert keys[0] in keys;
      forall k | k in keys[1..] ensures k in keys { }
      WithoutIsPurge(keys[1..], removed);
    }
  }

  /** `localStorage`: keys in storage order, each with its value. */
  class LocalStorage {
    var keys: seq<string>
    var values: map<string, string>

    ghost predicate Valid()
      reads this
    {
      Distinct(keys) && forall k :: k in values <==> k in keys
    }

    constructor (values: map<string, string>, keys: seq<string>)
      requires Distinct(keys) && forall k :: k in values <==> k in keys
      ensures Valid() && this.keys == keys && this.values == values
    {
      this.keys, this.values := keys, values;
    }

    /** `localStorage.removeItem(key)`; a key that is not stored is ignored. */
    method RemoveItem(key: string)
      requires Valid()
      modifies this
      ensures Valid()
      ensures keys == Without(old(keys), {key}) && values == old(values) - {key}
    {
      WithoutDistinct(keys, {key});
      forall k ensures k in Without(keys, {key}) <==> k in keys && k != key {
        WithoutMembers(keys, {key}, k);
      }
      keys := Without(keys, {key});
      values := values - {key};
    }
  }

  /** `removeAllAppData`: first collect the fixed keys and every stored key with
      an application prefix, then remove them one by one. Collecting first means
      no key is skipped when the removals shift the storage positions. */
  method RemoveAllAppData(storage: LocalStorage)
    requires storage.Valid()
    modifies storage
    ensures storage.Valid()
    ensures storage.keys == Purged(old(storage.keys))
    ensures storage.values == map k | k in old(storage.values) && !ShouldRemove(k) :: old(storage.values)[k]
  {
    var keysToRemove := FixedKeys;
    var i := 0;
    while i < |storage.keys|
      invariant 0 <= i <= |storage.keys|
      invariant forall k :: k in keysToRemove <==> k in FixedKeys || (k in storage.keys[..i] && HasAppPrefix(k))
    {
      var key := storage.keys[i];
      assert storage.keys[..i + 1] == storage.keys[..i] + [key];
      if key != "" && HasAppPrefix(key) {
        keysToRemove := keysToRemove + [key];
      }
      i := i + 1;
    }
    assert storage.keys[..i] == storage.keys;
    ghost var keys0, values0 := storage.keys, storage.values;
    ghost var removed: set<string> := {};
    WithoutNothing(keys0);
    var j := 0;
    while j < |keysToRemove|
      invariant 0 <= j <= |keysToRemove|
      invariant storage.Valid()
      invariant forall k :: k in removed <==> k in keysToRemove[..j]
      invariant storage.keys == Without(keys0, removed)
      invariant storage.values == values0 - removed
    {
      var key := keysToRemove[j];
      assert keysToRemove[..j + 1] == keysToRemove[..j] + [key];
      WithoutTwice(keys0, removed, {key});
      storage.RemoveItem(key);
      removed := removed + {key};
      j := j + 1;
    }
    assert keysToRemove[..j] == keysToRemove;
    WithoutIsPurge(keys0, removed);
  }

  /** A user as the profile page holds it; fields other than the name may be absent. */
  datatype ProfileUser = ProfileUser(id: Option<string>, username: string, email: Option<string>)

  /** `{ ...prevUser, username }`: only the name changes; spreading `undefined`
      gives an object with the name alone. */
  function WithUsername(prevUser: Option<ProfileUser>, username: string): (u: ProfileUser)
    ensures u.username == username
    ensures prevUser.Some? ==> u.id == prevUser.value.id && u.email == prevUser.value.email
    ensures prevUser.None? ==> u.id.None? && u.email.None?
  {
    match prevUser
    case None => ProfileUser(None, username, None)
    case Some(prev) => prev.(username := username)
  }

  class ProfilePage {
    var user: Option<ProfileUser>
    var isEditing: bool
    var loading: bool

    constructor ()
      ensures user == None && !isEditing && !loading
    {
      user, isEditing, loading := None, false, false;
    }

    /** `handleUpdateProfile` with the form's `username` and the HTTP status of
        `PUT /profile` (or the thrown request); `toast` is the toast raised. */
    method HandleUpdateProfile(username: string, outcome: Fetched<int>) returns (toast: Option<string>)
      modifies this
      ensures user == if outcome == Returned(200) then Some(WithUsername(old(user), username)) else old(user)
      ensures !isEditing && !loading
      ensures outcome == Returned(200) ==> toast == Some("Profile updated successfully.")
      ensures outcome.Threw? ==> toast == Some("Failed to update profile.")
      ensures outcome.Returned? && outcome.result != 200 ==> toast == None
    {
      loading, toast := true, None;
      if outcome.Threw? {
        toast := Some("Failed to update profile.");
      } else if outcome.result == 200 {
        user := Some(WithUsername(user, username));
        toast := Some("Profile updated successfully.");
      }
      isEditing := false;
      loading := false;
    }

    /** `confirmDelete` with the HTTP status of `DELETE /profile`, or the thrown
        request. Every path ends on the sign-in page. */
    method ConfirmDelete(store: UserStore, storage: LocalStorage, outcome: Fetched<int>)
      returns (navigations: seq<string>, toast: Option<string>)
      requires storage.Valid()
      modifies this`loading, store, storage
      ensures storage.Valid() && !loading
      ensures |navigations| > 0 && forall n :: n in navigations ==> n == "/login"
      ensures outcome.Returned? ==>
        && store.State() == InitialState
        && storage.keys == Purged(old(storage.keys))
        && storage.values == (map k | k in old(storage.values) && !ShouldRemove(k) :: old(storage.values)[k])
        && toast == (if outcome.result == 200 then Some("Account deleted successfully.") else None)
      ensures outcome.Threw? ==>
        && store.State() == old(store.State())
        && storage.keys == old(storage.keys) && storage.values == old(storage.values)
        && toast == Some("Failed to delete account.")
    {
      loading := true;
      navigations, toast := [], None;
      if outcome.Returned? {
        var removed := store.Dispatch(SignOutUserStart);
        if outcome.result == 200 {
          toast := Some("Account deleted successfully.");
        }
        removed := store.Dispatch(SignOutUserSuccess);
        RemoveAllAppData(storage);
        navigations := navigations + ["/login"];
      } else {
        toast := Some("Failed to delete account.");
      }
      loading := false;
      navigations := navigations + ["/login"];
    }
  }

  /** `onSignOut` with `status` of the reply body of `POST /profile/logout`, or
      the thrown request. Any status but 200 reaches `result.json()`, which is not
      a function of the parsed body and throws, so it ends as a sign-out failure:
      the user is dropped and the error kept. */
  method OnSignOut(store: UserStore, storage: LocalStorage, outcome: Fetched<int>) returns (navigations: seq<string>)
    requires storage.Valid()
    modifies store, storage
    ensures storage.Valid()
    ensures outcome == Returned(200) ==>
      && store.State() == InitialState
      && storage.keys == Purged(old(storage.keys))
      && storage.values == (map k | k in old(storage.values) && !ShouldRemove(k) :: old(storage.values)[k])
      && navigations == ["/login"]
    ensures outcome != Returned(200) ==>
      && store.State() == UserState(None, old(store.error), false)
      && storage.keys == old(storage.keys) && storage.values == old(storage.values)
      && navigations == []
  {
    navigations := [];
    var removed := store.Dispatch(SignOutUserStart);
    if outcome == Returned(200) {
      removed := store.Dispatch(SignOutUserSuccess);
      RemoveAllAppData(storage);
      navigations := ["/login"];
    } else {
      removed := store.Dispatch(SignOutUserFailure);
    }
  }
}
