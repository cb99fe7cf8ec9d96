/** The derived lists of the my-page view (src/app/mypage/page.tsx): the
    favourited drones, the user's own listings and their three-item preview. */
module MyPage {
  import opened Wrappers
  import opened Seqs
  import opened DroneTypes
  import opened Auth
  import opened Favorites

  function Favourited(favs: seq<Favorite>): Drone -> bool {
    (d: Drone) => IsFavorite(favs, d.id)
  }

  /** `favoriteDrones`: catalogue drones some favourite refers to, in catalogue order. */
  function FavoriteDrones(catalogue: seq<Drone>, favs: seq<Favorite>): (r: seq<Drone>)
    ensures forall d :: d in r <==> d in catalogue && IsFavorite(favs, d.id)
    ensures forall d :: multiset(r)[d] == if IsFavorite(favs, d.id) then multiset(catalogue)[d] else 0
    ensures IsSubseq(r, catalogue)
  {
    FilterIsSubseq(catalogue, Favourited(favs));
    FilterMultiset(catalogue, Favourited(favs));
    Filter(catalogue, Favourited(favs))
  }

  /** A favourite whose drone is not in the catalogue shows nothing. */
  lemma OrphanFavoriteShowsNothing(catalogue: seq<Drone>, favs: seq<Favorite>, f: Favorite)
    requires forall d :: d in catalogue ==> d.id != f.droneId
    ensures FavoriteDrones(catalogue, favs + [f]) == FavoriteDrones(catalogue, favs)
  {
    forall d | d in catalogue
      ensures Favourited(favs + [f])(d) == Favourited(favs)(d)
    {
      if IsFavorite(favs + [f], d.id) {
        var i :| 0 <= i < |favs + [f]| && (favs + [f])[i].droneId == d.id;
        assert i < |favs| && favs[i].droneId == d.id;
      }
      if IsFavorite(favs, d.id) {
        var i :| 0 <= i < |favs| && favs[i].droneId == d.id;
        assert (favs + [f])[i].droneId == d.id;
      }
    }
    FilterExt(catalogue, Favourited(favs + [f]), Favourited(favs));
  }

  /** `drone.seller.id === user?.id`, with JavaScript's `undefined === undefined`. */
  predicate SoldBy(d: Drone, user: Option<User>) {
    d.sellerId == (if user.Some? then Some(user.value.id) else None)
  }

  function SoldByUser(user: Option<User>): Drone -> bool {
    (d: Drone) => SoldBy(d, user)
  }

  /** `mySales`: the catalogue drones whose seller is the current user. With no
      user it is the drones with no seller id (the page then shows a login prompt). */
  function MySales(catalogue: seq<Drone>, user: Option<User>): (r: seq<Drone>)
    ensures user.Some? ==> forall d :: d in r <==> d in catalogue && d.sellerId == Some(user.value.id)
    ensures user.None? ==> forall d :: d in r <==> d in catalogue && d.sellerId.None?
    ensures forall d :: multiset(r)[d] == if SoldBy(d, user) then multiset(catalogue)[d] else 0
    ensures IsSubseq(r, catalogue)
  {
    FilterIsSubseq(catalogue, SoldByUser(user));
    FilterMultiset(catalogue, SoldByUser(user));
    Filter(catalogue, SoldByUser(user))
  }

  /** The user's listings in two catalogues together are their listings in
      each, in order. */
  lemma MySalesAppend(a: seq<Drone>, b: seq<Drone>, user: Option<User>)
    ensures MySales(a + b, user) == MySales(a, user) + MySales(b, user)
  {
    FilterAppend(a, b, SoldByUser(user));
  }

  /** Two signed-in users with different ids never share a listing, and no
      signed-in user shares one with the signed-out view. */
  lemma SalesOfDifferentUsersDisjoint(catalogue: seq<Drone>, u: User, v: Option<User>)
    requires v.Some? ==> v.value.id != u.id
    ensures forall d :: d in MySales(catalogue, Some(u)) ==> d !in MySales(catalogue, v)
  {
  }

  /** `mySales.slice(0, 3)`: at most three items, the first ones. */
  function SalesPreview(sales: seq<Drone>): (r: seq<Drone>)
    ensures |r| <= 3
    ensures r <= sales
    ensures |sales| >= 3 ==> |r| == 3
    ensures |sales| < 3 ==> r == sales
  {
    if |sales| <= 3 then sales else sales[..3]
  }
}
