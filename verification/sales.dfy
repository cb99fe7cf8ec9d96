/** The seller's listing management (src/app/mypage/sales/page.tsx): loading
    the user's listings, the status tabs and their counts, status changes and
    deletion (the confirmed branch of the dialog). */
module Sales {
  import opened Wrappers
  import opened Seqs
  import opened DroneTypes
  import opened Auth
  import MyPage

  /** The status tab: everything, or one status. */
  datatype StatusFilter = All | Only(status: Status)

  /** The effect on user change: a present user's listings replace the list; with
      no user the list is left as it was. */
  function LoadMyDrones(catalogue: seq<Drone>, user: Option<User>, current: seq<Drone>): (r: seq<Drone>)
    ensures user.Some? ==> forall d :: d in r <==> d in catalogue && d.sellerId == Some(user.value.id)
    ensures user.Some? ==>
      forall d :: multiset(r)[d] == if d.sellerId == Some(user.value.id) then multiset(catalogue)[d] else 0
    ensures user.Some? ==> IsSubseq(r, catalogue)
    ensures user.None? ==> r == current
  {
    if user.Some? then MyPage.MySales(catalogue, user) else current
  }

  function HasStatus(s: Status): Drone -> bool {
    (d: Drone) => d.status == s
  }

  /** The listings shown under a tab. */
  function Shown(myDrones: seq<Drone>, f: StatusFilter): (r: seq<Drone>)
    ensures f.All? ==> r == myDrones
    ensures f.Only? ==> forall d :: d in r <==> d in myDrones && d.status == f.status
    ensures f.Only? ==> forall d :: multiset(r)[d] == if d.status == f.status then multiset(myDrones)[d] else 0
    ensures IsSubseq(r, myDrones)
  {
    match f
    case All =>
      FilterAll(myDrones, (d: Drone) => true);
      FilterIsSubseq(myDrones, (d: Drone) => true);
      myDrones
    case Only(s) =>
      FilterIsSubseq(myDrones, HasStatus(s));
      FilterMultiset(myDrones, HasStatus(s));
      Filter(myDrones, HasStatus(s))
  }

  /** `handleStatusChange(id, status)`: the listings with that id take the new
      status; nothing else changes, in any listing. */
  function ChangeStatus(myDrones: seq<Drone>, id: int, status: Status): (r: seq<Drone>)
    ensures |r| == |myDrones|
    ensures forall i :: 0 <= i < |r| && myDrones[i].id == id ==>
      r[i].status == status && r[i].(status := myDrones[i].status) == myDrones[i]
    ensures forall i :: 0 <= i < |r| && myDrones[i].id != id ==> r[i] == myDrones[i]
  {
    seq(|myDrones|, i requires 0 <= i < |myDrones| =>
      if myDrones[i].id == id then myDrones[i].(status := status) else myDrones[i])
  }

  function OtherId(id: int): Drone -> bool {
    (d: Drone) => d.id != id
  }

  /** `handleDelete(id)` once confirmed: every listing with that id goes, the rest stay in order. */
  function Delete(myDrones: seq<Drone>, id: int): (r: seq<Drone>)
    ensures forall d :: d in r <==> d in myDrones && d.id != id
    ensures forall d :: multiset(r)[d] == if d.id != id then multiset(myDrones)[d] else 0
    ensures IsSubseq(r, myDrones)
  {
    FilterIsSubseq(myDrones, OtherId(id));
    FilterMultiset(myDrones, OtherId(id));
    Filter(myDrones, OtherId(id))
  }

  function HasId(id: int): Drone -> bool {
    (d: Drone) => d.id == id
  }

  /** Deletion drops exactly the listings that carry the id: those and the
      survivors together are the whole list. */
  lemma DeleteCount(myDrones: seq<Drone>, id: int)
    ensures |Delete(myDrones, id)| + |Filter(myDrones, HasId(id))| == |myDrones|
  {
    FilterSplit(myDrones, HasId(id), OtherId(id));
  }

  /** Confirming the same deletion twice changes nothing the second time. */
  lemma DeleteIdempotent(myDrones: seq<Drone>, id: int)
    ensures Delete(Delete(myDrones, id), id) == Delete(myDrones, id)
  {
    var once := Delete(myDrones, id);
    assert forall i :: 0 <= i < |once| ==> once[i] in once;
    FilterAll(once, OtherId(id));
  }

  /** The number on a tab. */
  function CountOf(myDrones: seq<Drone>, f: StatusFilter): nat {
    |Shown(myDrones, f)|
  }

  function PremiumCount(myDrones: seq<Drone>): nat {
    |Filter(myDrones, (d: Drone) => d.isPremium)|
  }

  /** The 'all' tab counts every listing, and when each listing has one of the
      three known statuses the other three tabs add up to it. */
  lemma CountsAddUp(myDrones: seq<Drone>)
    ensures CountOf(myDrones, All) == |myDrones|
    ensures (forall i :: 0 <= i < |myDrones| ==> IsKnownStatus(myDrones[i].status)) ==>
      CountOf(myDrones, Only(Active)) + CountOf(myDrones, Only(Sold)) + CountOf(myDrones, Only(Inactive)) == |myDrones|
  {
    assert Shown(myDrones, Only(Active)) == Filter(myDrones, HasStatus(Active));
    assert Shown(myDrones, Only(Sold)) == Filter(myDrones, HasStatus(Sold));
    assert Shown(myDrones, Only(Inactive)) == Filter(myDrones, HasStatus(Inactive));
    if forall i :: 0 <= i < |myDrones| ==> IsKnownStatus(myDrones[i].status) {
      StatusFiltersPartition(myDrones);
    }
  }

  /** Listings with known statuses split over the three status filters. */
  lemma {:induction false} StatusFiltersPartition(myDrones: seq<Drone>)
    requires forall i :: 0 <= i < |myDrones| ==> IsKnownStatus(myDrones[i].status)
    ensures |Filter(myDrones, HasStatus(Active))| + |Filter(myDrones, HasStatus(Sold))|
            + |Filter(myDrones, HasStatus(Inactive))| == |myDrones|
  {
    if |myDrones| > 0 {
      assert forall i :: 0 <= i < |myDrones[1..]| ==> myDrones[1..][i] == myDrones[i + 1];
      StatusFiltersPartition(myDrones[1..]);
    }
  }

  /** A status change keeps the number of listings and of premium listings. */
  lemma StatusChangeKeepsTotals(myDrones: seq<Drone>, id: int, status: Status)
    ensures CountOf(ChangeStatus(myDrones, id, status), All) == CountOf(myDrones, All)
    ensures PremiumCount(ChangeStatus(myDrones, id, status)) == PremiumCount(myDrones)
  {
    var r := ChangeStatus(myDrones, id, status);
    FilterCountPointwise(r, myDrones, (d: Drone) => d.isPremium);
  }
}
