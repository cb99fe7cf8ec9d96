/** The per-user favourites list (src/contexts/FavoriteContext.tsx): add,
    remove, membership and count, and the reload that runs whenever the session
    changes. `Date.now()` and the ISO creation time are passed in as `now`; the
    browser's local storage is a map from user id to the saved list. */
module Favorites {
  import opened Wrappers
  import opened Seqs
  import opened DroneTypes
  import opened Auth

  datatype Favorite = Favorite(id: int, userId: string, droneId: int, createdAt: int, drone: Drone)

  /** The alert `addFavorite` raises instead of adding. */
  datatype Notice = LoginRequired | AlreadyFavorite

  datatype AddResult = AddResult(favorites: seq<Favorite>, notice: Option<Notice>)

  /** `isFavorite(droneId)`: some entry refers to that drone. */
  predicate IsFavorite(favs: seq<Favorite>, droneId: int) {
    exists i :: 0 <= i < |favs| && favs[i].droneId == droneId
  }

  /** Every entry belongs to the given user. */
  predicate OwnedBy(favs: seq<Favorite>, userId: string) {
    forall i :: 0 <= i < |favs| ==> favs[i].userId == userId
  }

  /** No drone is favourited twice. */
  predicate UniqueDroneIds(favs: seq<Favorite>) {
    forall i, j :: 0 <= i < j < |favs| ==> favs[i].droneId != favs[j].droneId
  }

  /** `addFavorite(drone)` under session `auth`. */
  function AddFavorite(auth: AuthState, favs: seq<Favorite>, drone: Drone, now: int): (r: AddResult)
    requires Consistent(auth)
    ensures !auth.isLoggedIn ==> r == AddResult(favs, Some(LoginRequired))
    ensures auth.isLoggedIn && IsFavorite(favs, drone.id) ==> r == AddResult(favs, Some(AlreadyFavorite))
    ensures auth.isLoggedIn && !IsFavorite(favs, drone.id) ==>
      && r.notice.None?
      && |r.favorites| == |favs| + 1
      && r.favorites[..|favs|] == favs
      && r.favorites[|favs|].droneId == drone.id
      && r.favorites[|favs|].userId == auth.user.value.id
      && r.favorites[|favs|].drone == drone
    ensures UniqueDroneIds(favs) ==> UniqueDroneIds(r.favorites)
    ensures auth.isLoggedIn && OwnedBy(favs, auth.user.value.id) ==> OwnedBy(r.favorites, auth.user.value.id)
  {
    if !auth.isLoggedIn then AddResult(favs, Some(LoginRequired))
    else if IsFavorite(favs, drone.id) then AddResult(favs, Some(AlreadyFavorite))
    else
      var r := favs + [Favorite(now, auth.user.value.id, drone.id, now, drone)];
      assert r[..|favs|] == favs;
      AddResult(r, None)
  }

  function OtherThan(droneId: int): Favorite -> bool {
    (f: Favorite) => f.droneId != droneId
  }

  /** `removeFavorite(droneId)`: drops the entries for that drone, keeps the rest in order. */
  function RemoveFavorite(favs: seq<Favorite>, droneId: int): (r: seq<Favorite>)
    ensures forall f :: f in r <==> f in favs && f.droneId != droneId
    ensures forall f :: multiset(r)[f] == if f.droneId != droneId then multiset(favs)[f] else 0
    ensures !IsFavorite(r, droneId)
    ensures IsSubseq(r, favs)
    ensures !IsFavorite(favs, droneId) ==> r == favs
    ensures UniqueDroneIds(favs) ==> UniqueDroneIds(r)
    ensures forall userId :: OwnedBy(favs, userId) ==> OwnedBy(r, userId)
  {
    var r := Filter(favs, OtherThan(droneId));
    FilterIsSubseq(favs, OtherThan(droneId));
    assert forall f :: multiset(r)[f] == if f.droneId != droneId then multiset(favs)[f] else 0 by {
      FilterMultiset(favs, OtherThan(droneId));
    }
    assert !IsFavorite(r, droneId) by {
      assert forall i :: 0 <= i < |r| ==> r[i] in r;
    }
    assert !IsFavorite(favs, droneId) ==> r == favs by {
      if !IsFavorite(favs, droneId) {
        FilterAll(favs, OtherThan(droneId));
      }
    }
    MembersKeepOwner(r, favs);
    assert UniqueDroneIds(favs) ==> UniqueDroneIds(r) by {
      if UniqueDroneIds(favs) {
        SubseqKeepsUnique(r, favs);
      }
    }
    r
  }

  /** A list drawn from the entries of another belongs to whoever owns that one. */
  lemma MembersKeepOwner(a: seq<Favorite>, b: seq<Favorite>)
    requires forall f :: f in a ==> f in b
    ensures forall userId :: OwnedBy(b, userId) ==> OwnedBy(a, userId)
  {
    forall userId | OwnedBy(b, userId)
      ensures OwnedBy(a, userId)
    {
      forall i | 0 <= i < |a|
        ensures a[i].userId == userId
      {
        assert a[i] in a;
        var k :| 0 <= k < |b| && b[k] == a[i];
      }
    }
  }

  lemma {:induction false} SubseqKeepsUnique(a: seq<Favorite>, b: seq<Favorite>)
    requires IsSubseq(a, b)
    requires UniqueDroneIds(b)
    ensures UniqueDroneIds(a)
    decreases |b|
  {
    if |a| > 0 && |b| > 0 {
      assert UniqueDroneIds(b[1..]) by {
        assert forall i :: 0 <= i < |b[1..]| ==> b[1..][i] == b[i + 1];
      }
      if a[0] == b[0] && IsSubseq(a[1..], b[1..]) {
        SubseqKeepsUnique(a[1..], b[1..]);
        SubseqMembers(a[1..], b[1..]);
        forall j | 0 < j < |a|
          ensures a[0].droneId != a[j].droneId
        {
          assert a[1..][j - 1] == a[j];
          var k :| 0 <= k < |b[1..]| && b[1..][k] == a[j];
          assert b[k + 1] == a[j];
        }
      } else {
        SubseqKeepsUnique(a, b[1..]);
      }
    }
  }

  lemma {:induction false} SubseqMembers(a: seq<Favorite>, b: seq<Favorite>)
    requires IsSubseq(a, b)
    ensures forall i :: 0 <= i < |a| ==> exists k :: 0 <= k < |b| && b[k] == a[i]
    decreases |b|
  {
    if |a| > 0 && |b| > 0 {
      if a[0] == b[0] && IsSubseq(a[1..], b[1..]) {
        SubseqMembers(a[1..], b[1..]);
        forall i | 0 < i < |a|
          ensures exists k :: 0 <= k < |b| && b[k] == a[i]
        {
          assert a[1..][i - 1] == a[i];
          var k :| 0 <= k < |b[1..]| && b[1..][k] == a[i];
          assert b[k + 1] == a[i];
        }
        assert b[0] == a[0];
      } else {
        SubseqMembers(a, b[1..]);
        forall i | 0 <= i < |a|
          ensures exists k :: 0 <= k < |b| && b[k] == a[i]
        {
          var k :| 0 <= k < |b[1..]| && b[1..][k] == a[i];
          assert b[k + 1] == a[i];
        }
      }
    }
  }

  /** `isFavorite(droneId)` as the context computes it, `favorites.some(...)`:
      a front-to-back scan, which holds exactly when some entry refers to the
      drone. */
  function SomeFavorite(favs: seq<Favorite>, droneId: int): (r: bool)
    ensures r <==> IsFavorite(favs, droneId)
  {
    if |favs| == 0 then false
    else
      assert IsFavorite(favs, droneId) <==> favs[0].droneId == droneId || IsFavorite(favs[1..], droneId) by {
        assert forall i :: 0 <= i < |favs[1..]| ==> favs[1..][i] == favs[i + 1];
        if IsFavorite(favs, droneId) && favs[0].droneId != droneId {
          var i :| 0 <= i < |favs| && favs[i].droneId == droneId;
          assert favs[1..][i - 1].droneId == droneId;
        }
      }
      favs[0].droneId == droneId || SomeFavorite(favs[1..], droneId)
  }

  /** `getFavoritesCount()`: zero exactly when no drone is a favourite. */
  function FavoritesCount(favs: seq<Favorite>): (r: nat)
    ensures r == 0 <==> forall droneId :: !IsFavorite(favs, droneId)
  {
    assert |favs| > 0 ==> IsFavorite(favs, favs[0].droneId);
    |favs|
  }

  /** With no drone listed twice, removing a drone lowers the count by one
      exactly when it was a favourite, and otherwise leaves it. */
  lemma RemoveCount(favs: seq<Favorite>, droneId: int)
    requires UniqueDroneIds(favs)
    ensures FavoritesCount(RemoveFavorite(favs, droneId)) ==
            FavoritesCount(favs) - (if IsFavorite(favs, droneId) then 1 else 0)
  {
    assert RemoveFavorite(favs, droneId) == Filter(favs, OtherThan(droneId));
    OtherThanCount(favs, droneId);
  }

  lemma {:induction false} OtherThanCount(favs: seq<Favorite>, droneId: int)
    requires UniqueDroneIds(favs)
    ensures |Filter(favs, OtherThan(droneId))| == |favs| - (if IsFavorite(favs, droneId) then 1 else 0)
  {
    if |favs| > 0 {
      var t := favs[1..];
      assert forall i :: 0 <= i < |t| ==> t[i] == favs[i + 1];
      assert UniqueDroneIds(t);
      if favs[0].droneId == droneId {
        forall i | 0 <= i < |t|
          ensures OtherThan(droneId)(t[i])
        {
          assert favs[0].droneId != favs[i + 1].droneId;
        }
        FilterAll(t, OtherThan(droneId));
      } else {
        OtherThanCount(t, droneId);
        assert IsFavorite(favs, droneId) ==> IsFavorite(t, droneId) by {
          if IsFavorite(favs, droneId) {
            var i :| 0 <= i < |favs| && favs[i].droneId == droneId;
            assert t[i - 1].droneId == droneId;
          }
        }
        assert IsFavorite(t, droneId) ==> IsFavorite(favs, droneId) by {
          if IsFavorite(t, droneId) {
            var i :| 0 <= i < |t| && t[i].droneId == droneId;
            assert favs[i + 1].droneId == droneId;
          }
        }
      }
    }
  }

  /** Adding a new drone and then removing it restores the list; the count goes
      up by one and back down, and the drone is a favourite in between. */
  lemma AddThenRemove(auth: AuthState, favs: seq<Favorite>, drone: Drone, now: int)
    requires Consistent(auth) && auth.isLoggedIn
    requires !IsFavorite(favs, drone.id)
    ensures IsFavorite(AddFavorite(auth, favs, drone, now).favorites, drone.id)
    ensures FavoritesCount(AddFavorite(auth, favs, drone, now).favorites) == FavoritesCount(favs) + 1
    ensures RemoveFavorite(AddFavorite(auth, favs, drone, now).favorites, drone.id) == favs
  {
    var added := AddFavorite(auth, favs, drone, now).favorites;
    assert added == favs + [added[|favs|]];
    FilterAppend(favs, [added[|favs|]], OtherThan(drone.id));
    FilterAll(favs, OtherThan(drone.id));
    assert [added[|favs|]][1..] == [];
  }

  /** The reload effect as written: logged in, the saved list replaces the state
      when one exists and the state is otherwise left as it was; logged out, the
      list is emptied. */
  function SyncWithSession(auth: AuthState, saved: map<string, seq<Favorite>>, current: seq<Favorite>): (r: seq<Favorite>)
    ensures !auth.isLoggedIn ==> r == []
    ensures auth.isLoggedIn && auth.user.Some? && auth.user.value.id in saved ==> r == saved[auth.user.value.id]
    ensures auth.isLoggedIn && auth.user.Some? && auth.user.value.id !in saved ==> r == current
  {
    if auth.isLoggedIn && auth.user.Some? then
      if auth.user.value.id in saved then saved[auth.user.value.id] else current
    else
      []
  }

  /** Switching straight from one user to another — signing up while logged in —
      when the new user has nothing saved, leaves the previous user's favourites
      in place under the new session. */
  lemma SwitchUserKeepsPreviousFavorites(d: Drone)
    ensures var previous := [Favorite(1, "1", d.id, 1, d)];
            var newUser := User("2", "b@example.com", "b", "", 0.0, "2024-01-02", false, "/images/default-avatar.png");
            var r := SyncWithSession(AuthState(Some(newUser), true), map[], previous);
            r == previous && r[0].userId != newUser.id
  {
  }

  /** Every saved list holds only its owner's entries. */
  predicate SavedListsOwned(saved: map<string, seq<Favorite>>) {
    forall id | id in saved :: OwnedBy(saved[id], id)
  }

  /** The reload with the evident intent: a user without a saved list starts empty. */
  function SyncWithSessionFixed(auth: AuthState, saved: map<string, seq<Favorite>>): (r: seq<Favorite>)
    requires Consistent(auth)
    ensures !auth.isLoggedIn ==> r == []
    ensures SavedListsOwned(saved) && auth.isLoggedIn ==>
      forall i :: 0 <= i < |r| ==> r[i].userId == auth.user.value.id
  {
    if auth.isLoggedIn then
      if auth.user.value.id in saved then saved[auth.user.value.id] else []
    else
      []
  }

  /** The correction only differs from the code as written where the user has
      no saved list: there it starts empty instead of keeping the old state. */
  lemma FixedSyncDiffersOnlyWithoutSavedList(auth: AuthState, saved: map<string, seq<Favorite>>, current: seq<Favorite>)
    requires Consistent(auth)
    ensures !auth.isLoggedIn || auth.user.value.id in saved ==>
      SyncWithSessionFixed(auth, saved) == SyncWithSession(auth, saved, current)
    ensures auth.isLoggedIn && auth.user.value.id !in saved ==> SyncWithSessionFixed(auth, saved) == []
  {
  }

  /** The save effect: while a user is logged in, the list is written under
      that user's key; every other key, and everything when logged out, is
      left as it was. */
  function Save(auth: AuthState, favs: seq<Favorite>, saved: map<string, seq<Favorite>>)
    : (r: map<string, seq<Favorite>>)
    requires Consistent(auth)
    ensures auth.isLoggedIn ==> auth.user.value.id in r && r[auth.user.value.id] == favs
    ensures forall id :: id in saved && !(auth.isLoggedIn && id == auth.user.value.id) ==>
      id in r && r[id] == saved[id]
    ensures forall id :: id in r ==> id in saved || (auth.isLoggedIn && id == auth.user.value.id)
  {
    if auth.isLoggedIn then saved[auth.user.value.id := favs] else saved
  }

  /** Saving a list that belongs to the logged-in user keeps every saved list
      owned by its key's user. */
  lemma SaveKeepsOwned(auth: AuthState, favs: seq<Favorite>, saved: map<string, seq<Favorite>>)
    requires Consistent(auth) && SavedListsOwned(saved)
    requires auth.isLoggedIn ==> OwnedBy(favs, auth.user.value.id)
    ensures SavedListsOwned(Save(auth, favs, saved))
  {
  }

  /** The provider as a whole: the session it reads, the list in memory and
      what storage holds. */
  datatype Provider = Provider(auth: AuthState, favs: seq<Favorite>, saved: map<string, seq<Favorite>>)

  /** A session change, `addFavorite` or `removeFavorite`. */
  datatype ProviderEvent = Session(e: AuthEvent) | Add(drone: Drone, now: int) | Remove(droneId: int)

  /** What the corrected provider keeps true: the session is consistent, every
      saved list belongs to its key's user, and the list in memory is the
      logged-in user's own saved list, or empty when logged out. */
  predicate ProviderOk(p: Provider) {
    && Consistent(p.auth)
    && SavedListsOwned(p.saved)
    && (p.auth.isLoggedIn ==>
          OwnedBy(p.favs, p.auth.user.value.id)
          && p.auth.user.value.id in p.saved && p.saved[p.auth.user.value.id] == p.favs)
    && (!p.auth.isLoggedIn ==> p.favs == [])
  }

  /** The list change an event makes, with the sync given as a parameter. */
  function ListAfter(p: Provider, ev: ProviderEvent, auth: AuthState, synced: seq<Favorite>): seq<Favorite>
    requires Consistent(p.auth)
  {
    match ev
    case Session(_) => synced
    case Add(drone, now) => AddFavorite(p.auth, p.favs, drone, now).favorites
    case Remove(droneId) => RemoveFavorite(p.favs, droneId)
  }

  /** One event under the corrected sync. A session change re-runs the sync,
      then the save effect. In the commit that changes the user the save
      effect first writes the previous list under the new key, and the
      re-render's save then overwrites it with the synced list; only that last
      write is kept here. Add and remove change the list, then the save runs. */
  function StepFixed(p: Provider, ev: ProviderEvent): (r: Provider)
    requires Consistent(p.auth)
    ensures Consistent(r.auth)
    ensures ev.Session? ==> r.auth == Apply(p.auth, ev.e)
    ensures !ev.Session? ==> r.auth == p.auth
  {
    var auth := if ev.Session? then Apply(p.auth, ev.e) else p.auth;
    assert Consistent(auth) by {
      if ev.Session? {
        assert ApplyAll(p.auth, [ev.e]) == ApplyAll(Apply(p.auth, ev.e), []);
        AlwaysConsistent(p.auth, [ev.e]);
      }
    }
    var favs := ListAfter(p, ev, auth, SyncWithSessionFixed(auth, p.saved));
    Provider(auth, favs, Save(auth, favs, p.saved))
  }

  /** Every event keeps the corrected provider's invariant. A session event
      that leaves the session as it was also leaves the provider as it was, as
      the real effects, which do not re-run then, do. */
  lemma StepFixedKeepsOk(p: Provider, ev: ProviderEvent)
    requires ProviderOk(p)
    ensures ProviderOk(StepFixed(p, ev))
    ensures ev.Session? && Apply(p.auth, ev.e) == p.auth ==> StepFixed(p, ev) == p
  {
    var r := StepFixed(p, ev);
    var favs := r.favs;
    assert r.auth.isLoggedIn ==> OwnedBy(favs, r.auth.user.value.id);
    SaveKeepsOwned(r.auth, favs, p.saved);
    if ev.Session? && Apply(p.auth, ev.e) == p.auth && p.auth.isLoggedIn {
      assert p.saved[p.auth.user.value.id := p.favs] == p.saved;
    }
  }

  function RunFixed(p: Provider, events: seq<ProviderEvent>): (r: Provider)
    requires Consistent(p.auth)
    ensures Consistent(r.auth)
    decreases |events|
  {
    if |events| == 0 then p else RunFixed(StepFixed(p, events[0]), events[1..])
  }

  /** From a fresh page over storage whose lists each belong to their key's
      user, no sequence of session changes, adds and removes ever shows or
      stores a favourite under a user it does not belong to. */
  lemma {:induction false} FixedProviderOkAfterAnyEvents(p: Provider, events: seq<ProviderEvent>)
    requires ProviderOk(p)
    ensures ProviderOk(RunFixed(p, events))
    decreases |events|
  {
    if |events| > 0 {
      StepFixedKeepsOk(p, events[0]);
      FixedProviderOkAfterAnyEvents(StepFixed(p, events[0]), events[1..]);
    }
  }

  /** The fresh page: logged out, nothing in memory, storage as found. */
  lemma FreshProviderOk(saved: map<string, seq<Favorite>>)
    requires SavedListsOwned(saved)
    ensures ProviderOk(Provider(Initial(), [], saved))
  {
  }

  /** One event with the sync as written. */
  function StepAsWritten(p: Provider, ev: ProviderEvent): (r: Provider)
    requires Consistent(p.auth)
    ensures ev.Session? ==> r.auth == Apply(p.auth, ev.e)
    ensures !ev.Session? ==> r.auth == p.auth
  {
    var auth := if ev.Session? then Apply(p.auth, ev.e) else p.auth;
    assert Consistent(auth) by {
      if ev.Session? {
        assert ApplyAll(p.auth, [ev.e]) == ApplyAll(Apply(p.auth, ev.e), []);
        AlwaysConsistent(p.auth, [ev.e]);
      }
    }
    var favs := ListAfter(p, ev, auth, SyncWithSession(auth, p.saved, p.favs));
    Provider(auth, favs, Save(auth, favs, p.saved))
  }

  /** As written, signing up as a new user while another user with favourites
      is logged in stores that user's favourites under the new user's key. */
  lemma AsWrittenSwitchStoresForeignList(p: Provider, data: SignupData, newId: string, today: string)
    requires ProviderOk(p)
    requires p.auth.isLoggedIn && |p.favs| > 0
    requires newId != p.auth.user.value.id && newId !in p.saved
    ensures var r := StepAsWritten(p, Session(SignupEvent(data, newId, today)));
            newId in r.saved && r.saved[newId] == p.favs && !SavedListsOwned(r.saved)
  {
    var r := StepAsWritten(p, Session(SignupEvent(data, newId, today)));
    assert r.saved[newId][0].userId == p.auth.user.value.id;
  }
}
