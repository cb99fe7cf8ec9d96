/** The advertisement catalogue (src/data/ads.ts): three placement pools,
    the per-category lookup, random selection from a pool and the aggregate
    statistics. */
module Ads {
  import opened Wrappers

  datatype AdType = Banner | Sidebar | Inline

  datatype Size = Small | Medium | Large

  /** An advertisement. The monetisation fields are optional in the source;
      an absent one counts as 0 in the statistics. */
  datatype Ad = Ad(
    id: int,
    title: string,
    description: string,
    image: string,
    link: string,
    backgroundColor: string,
    sponsor: Option<bool>,
    size: Option<Size>,
    adType: AdType,
    price: Option<int>,
    views: Option<int>,
    clicks: Option<int>
  )

  predicate AllOfType(ads: seq<Ad>, t: AdType) {
    forall i :: 0 <= i < |ads| ==> ads[i].adType == t
  }

  /** `bannerAds` */
  function BannerAds(): (r: seq<Ad>)
    ensures |r| == 3 && AllOfType(r, Banner)
    ensures NumberedFrom(r, 1) && Plausible(r)
  {
    [ Ad(1, "DJI Mini 3 Pro", "최신 드론 기술로 완벽한 촬영을 경험하세요", "/dji-mini3.jpg",
         "https://dji.com", "#1e40af", None, None, Banner, Some(800000), Some(25000), Some(1250)),
      Ad(2, "드론 보험 특가", "안전한 비행을 위한 완벽한 보장", "/drone-insurance.jpg",
         "https://insurance.com", "#059669", None, None, Banner, Some(600000), Some(25000), Some(1000)),
      Ad(3, "드론 교육 과정", "전문가가 되기 위한 체계적인 교육", "/drone-education.jpg",
         "https://education.com", "#7c3aed", None, None, Banner, Some(500000), Some(25000), Some(750)) ]
  }

  /** `sidebarAds` */
  function SidebarAds(): (r: seq<Ad>)
    ensures |r| == 3 && AllOfType(r, Sidebar)
    ensures NumberedFrom(r, 4) && Plausible(r)
  {
    [ Ad(4, "Parrot Anafi", "4K HDR 촬영의 새로운 기준", "/parrot-anafi.jpg",
         "https://parrot.com", "#dc2626", Some(true), None, Sidebar, Some(400000), Some(15000), Some(600)),
      Ad(5, "드론 액세서리", "필수 액세서리 20% 할인", "/accessories.jpg",
         "https://accessories.com", "#ea580c", None, None, Sidebar, Some(300000), Some(15000), Some(450)),
      Ad(6, "드론 수리 서비스", "전문 기술자의 정밀 수리", "/repair-service.jpg",
         "https://repair.com", "#0891b2", None, None, Sidebar, Some(250000), Some(15000), Some(375)) ]
  }

  /** `inlineAds` */
  function InlineAds(): (r: seq<Ad>)
    ensures |r| == 3 && AllOfType(r, Inline)
    ensures NumberedFrom(r, 7) && Plausible(r)
  {
    [ Ad(7, "Autel EVO Nano", "소형 드론의 혁신, 4K 촬영의 새로운 경험", "/autel-evo.jpg",
         "https://autel.com", "#1f2937", None, Some(Medium), Inline, Some(350000), Some(12000), Some(480)),
      Ad(8, "드론 촬영 대행", "부동산, 이벤트, 상업 촬영 전문", "/shooting-service.jpg",
         "https://shooting.com", "#be185d", None, Some(Large), Inline, Some(450000), Some(12000), Some(600)),
      Ad(9, "드론 배터리 특가", "원본 배터리 30% 할인 이벤트", "/battery-sale.jpg",
         "https://battery.com", "#92400e", None, Some(Small), Inline, Some(200000), Some(12000), Some(360)) ]
  }

  /** The pool a placement type draws from. */
  function Pool(t: AdType): (r: seq<Ad>)
    ensures |r| > 0 && AllOfType(r, t)
  {
    match t
    case Banner => BannerAds()
    case Sidebar => SidebarAds()
    case Inline => InlineAds()
  }

  /** `getAdsByCategory`: one inline ad for 'beginner' and for 'professional',
      nothing for any other key. */
  function AdsByCategory(category: string): (r: seq<Ad>)
    ensures |r| == 1 <==> category == "beginner" || category == "professional"
    ensures |r| == 0 <==> category != "beginner" && category != "professional"
    ensures AllOfType(r, Inline) && Plausible(r)
    ensures category == "beginner" ==> NumberedFrom(r, 10)
    ensures category == "professional" ==> NumberedFrom(r, 11)
  {
    if category == "beginner" then
      [ Ad(10, "초보자 드론 추천", "처음 시작하는 분들을 위한 완벽한 선택", "/beginner-drone.jpg",
           "https://beginner.com", "#059669", None, Some(Medium), Inline, Some(300000), Some(8000), Some(320)) ]
    else if category == "professional" then
      [ Ad(11, "전문가용 드론", "상업용 촬영을 위한 최고급 드론", "/professional-drone.jpg",
           "https://professional.com", "#1e40af", None, Some(Large), Inline, Some(600000), Some(8000), Some(480)) ]
    else
      []
  }

  /** `Math.floor(x * n)` for a draw `x` of `Math.random()`, which lies in [0, 1). */
  function DrawIndex(x: real, n: nat): (k: int)
    requires 0.0 <= x < 1.0
    ensures 0 <= k
    ensures n > 0 ==> k < n
    ensures n == 0 ==> k == 0
    ensures k as real <= x * n as real < (k + 1) as real
  {
    var y := n as real;
    var k := (x * y).Floor;
    assert 0.0 <= x * y;
    assert n > 0 ==> x * y < y by {
      assert y - x * y == (1.0 - x) * y;
      if n > 0 {
        assert (1.0 - x) * y > 0.0;
      }
    }
    k
  }

  /** Indexing a pool with a draw; an empty pool yields `undefined`. */
  function Pick(pool: seq<Ad>, x: real): (r: Option<Ad>)
    requires 0.0 <= x < 1.0
    ensures r.None? <==> |pool| == 0
    ensures r.Some? ==> r.value in pool
  {
    var k := DrawIndex(x, |pool|);
    if k < |pool| then Some(pool[k]) else None
  }

  /** `getRandomAd(t)` with the draw of `Math.random()` passed in as `x`. */
  function RandomAd(t: AdType, x: real): (a: Ad)
    requires 0.0 <= x < 1.0
    ensures a in Pool(t)
    ensures a.adType == t
  {
    Pick(Pool(t), x).value
  }

  /** Every slot of a pool is selected by some draw: the draw k/n lands on index k. */
  lemma DrawReachesEveryIndex(k: nat, n: nat)
    requires k < n
    ensures 0.0 <= k as real / n as real < 1.0
    ensures DrawIndex(k as real / n as real, n) == k
  {
    var x := k as real / n as real;
    assert x * n as real == k as real;
  }

  /** The draw splits [0, 1) evenly: index `k` comes out exactly for `x` in
      [k/n, (k+1)/n), so every ad of a pool is equally likely. */
  lemma DrawIndexEvenSplit(x: real, n: nat, k: nat)
    requires 0.0 <= x < 1.0
    requires k < n
    ensures DrawIndex(x, n) == k <==> k as real / n as real <= x < (k + 1) as real / n as real
  {
  }

  /** Hence every ad of a pool can be returned by `getRandomAd`. */
  lemma RandomAdReachesEveryAd(t: AdType, k: nat)
    requires k < |Pool(t)|
    ensures 0.0 <= k as real / |Pool(t)| as real < 1.0
    ensures RandomAd(t, k as real / |Pool(t)| as real) == Pool(t)[k]
  {
    DrawReachesEveryIndex(k, |Pool(t)|);
  }

  /** `ad.price || 0` and friends: an absent figure counts as 0. */
  function OrZero(o: Option<int>): int {
    o.GetOr(0)
  }

  function PriceOf(a: Ad): int { OrZero(a.price) }
  function ViewsOf(a: Ad): int { OrZero(a.views) }
  function ClicksOf(a: Ad): int { OrZero(a.clicks) }

  /** The `reduce((sum, ad) => sum + f(ad), 0)` over a list of ads. */
  function Sum(ads: seq<Ad>, f: Ad -> int): int {
    if |ads| == 0 then 0 else f(ads[0]) + Sum(ads[1..], f)
  }

  /** The click-through rate: the sentinel '0' when there are no views,
      otherwise clicks per view as a percentage (before two-decimal formatting). */
  datatype Ctr = NoViews | Percent(value: real)

  datatype Stats = Stats(totalAds: nat, totalRevenue: int, totalViews: int, totalClicks: int, averageCtr: Ctr)

  /** The statistics of a list of ads, as `getAdStats` computes them. */
  function ComputeStats(all: seq<Ad>): (s: Stats)
    ensures s.totalAds == |all|
    ensures s.averageCtr.NoViews? <==> s.totalViews <= 0
    ensures s.averageCtr.Percent? ==> s.averageCtr.value * s.totalViews as real == 100.0 * s.totalClicks as real
  {
    var views := Sum(all, ViewsOf);
    var clicks := Sum(all, ClicksOf);
    Stats(|all|, Sum(all, PriceOf), views, clicks,
          if views > 0 then Percent(clicks as real / views as real * 100.0) else NoViews)
  }

  /** All ads in placement order: banner, then sidebar, then inline. */
  function AllAds(): (r: seq<Ad>)
    ensures |r| == |BannerAds()| + |SidebarAds()| + |InlineAds()|
  {
    BannerAds() + SidebarAds() + InlineAds()
  }

  /** `getAdStats()`: the totals of the three placement pools added together. */
  function GetAdStats(): (s: Stats)
    ensures s.totalAds == ComputeStats(BannerAds()).totalAds + ComputeStats(SidebarAds()).totalAds
                          + ComputeStats(InlineAds()).totalAds
    ensures s.totalRevenue == ComputeStats(BannerAds()).totalRevenue + ComputeStats(SidebarAds()).totalRevenue
                              + ComputeStats(InlineAds()).totalRevenue
    ensures s.totalViews == ComputeStats(BannerAds()).totalViews + ComputeStats(SidebarAds()).totalViews
                            + ComputeStats(InlineAds()).totalViews
    ensures s.totalClicks == ComputeStats(BannerAds()).totalClicks + ComputeStats(SidebarAds()).totalClicks
                             + ComputeStats(InlineAds()).totalClicks
  {
    StatsOfConcatenation(BannerAds(), SidebarAds());
    StatsOfConcatenation(BannerAds() + SidebarAds(), InlineAds());
    ComputeStats(AllAds())
  }

  /** Sums split over concatenation. */
  lemma {:induction false} SumAppend(a: seq<Ad>, b: seq<Ad>, f: Ad -> int)
    ensures Sum(a + b, f) == Sum(a, f) + Sum(b, f)
  {
    if |a| == 0 {
      assert a + b == b;
    } else {
      assert (a + b)[1..] == a[1..] + b;
      SumAppend(a[1..], b, f);
    }
  }

  /** The statistics of two lists together are the sums of their totals. */
  lemma StatsOfConcatenation(a: seq<Ad>, b: seq<Ad>)
    ensures ComputeStats(a + b).totalAds == ComputeStats(a).totalAds + ComputeStats(b).totalAds
    ensures ComputeStats(a + b).totalRevenue == ComputeStats(a).totalRevenue + ComputeStats(b).totalRevenue
    ensures ComputeStats(a + b).totalViews == ComputeStats(a).totalViews + ComputeStats(b).totalViews
    ensures ComputeStats(a + b).totalClicks == ComputeStats(a).totalClicks + ComputeStats(b).totalClicks
  {
    SumAppend(a, b, PriceOf);
    SumAppend(a, b, ViewsOf);
    SumAppend(a, b, ClicksOf);
  }

  /** No ads give zero totals and no rate; one ad contributes its own price,
      views and clicks, an absent figure counting as 0. With
      `StatsOfConcatenation` this fixes the totals of every list. */
  lemma StatsOfOneAd(a: Ad)
    ensures ComputeStats([]) == Stats(0, 0, 0, 0, NoViews)
    ensures ComputeStats([a]).totalAds == 1
    ensures ComputeStats([a]).totalRevenue == (if a.price.Some? then a.price.value else 0)
    ensures ComputeStats([a]).totalViews == (if a.views.Some? then a.views.value else 0)
    ensures ComputeStats([a]).totalClicks == (if a.clicks.Some? then a.clicks.value else 0)
  {
    assert [a][1..] == [];
  }

  /** Clicks never exceeding views, ad by ad, carries over to the totals. */
  lemma {:induction false} ClicksBoundedByViews(ads: seq<Ad>)
    requires forall i :: 0 <= i < |ads| ==> 0 <= ClicksOf(ads[i]) <= ViewsOf(ads[i])
    ensures 0 <= Sum(ads, ClicksOf) <= Sum(ads, ViewsOf)
  {
    if |ads| > 0 {
      ClicksBoundedByViews(ads[1..]);
    }
  }

  /** When no ad has more clicks than views, the rate is a percentage in [0, 100]. */
  lemma CtrIsPercentage(ads: seq<Ad>)
    requires forall i :: 0 <= i < |ads| ==> 0 <= ClicksOf(ads[i]) <= ViewsOf(ads[i])
    ensures ComputeStats(ads).averageCtr.Percent? ==> 0.0 <= ComputeStats(ads).averageCtr.value <= 100.0
  {
    ClicksBoundedByViews(ads);
    var s := ComputeStats(ads);
    if s.averageCtr.Percent? {
      RatioAtMostOne(s.totalClicks as real, s.totalViews as real);
    }
  }

  lemma RatioAtMostOne(c: real, v: real)
    requires 0.0 <= c <= v && v > 0.0
    ensures 0.0 <= c / v * 100.0 <= 100.0
  {
    var q := c / v;
    assert q * v == c;
    assert (1.0 - q) * v == v - c >= 0.0;
    assert 1.0 - q >= 0.0;
    assert q >= 0.0;
  }

  /** A three-ad sum is the sum of its three terms. */
  lemma SumOfThree(a: seq<Ad>, f: Ad -> int)
    requires |a| == 3
    ensures Sum(a, f) == f(a[0]) + f(a[1]) + f(a[2])
  {
    var b, c := a[1..], a[2..];
    assert b[1..] == c && c[1..] == [];
    assert Sum(c, f) == f(a[2]) + Sum([], f);
    assert Sum(b, f) == f(a[1]) + Sum(c, f);
  }

  /** The three-ad pools' totals. */
  lemma PoolTotals()
    ensures Sum(BannerAds(), PriceOf) == 1900000 && Sum(BannerAds(), ViewsOf) == 75000 && Sum(BannerAds(), ClicksOf) == 3000
    ensures Sum(SidebarAds(), PriceOf) == 950000 && Sum(SidebarAds(), ViewsOf) == 45000 && Sum(SidebarAds(), ClicksOf) == 1425
    ensures Sum(InlineAds(), PriceOf) == 1000000 && Sum(InlineAds(), ViewsOf) == 36000 && Sum(InlineAds(), ClicksOf) == 1440
  {
    SumOfThree(BannerAds(), PriceOf);
    SumOfThree(BannerAds(), ViewsOf);
    SumOfThree(BannerAds(), ClicksOf);
    SumOfThree(SidebarAds(), PriceOf);
    SumOfThree(SidebarAds(), ViewsOf);
    SumOfThree(SidebarAds(), ClicksOf);
    SumOfThree(InlineAds(), PriceOf);
    SumOfThree(InlineAds(), ViewsOf);
    SumOfThree(InlineAds(), ClicksOf);
  }

  /** The shipped catalogue: 9 ads, 3,850,000 won of monthly revenue,
      156,000 views and 5,865 clicks, so the rate is a real percentage. */
  lemma ShippedStats()
    ensures GetAdStats().totalAds == 9
    ensures GetAdStats().totalRevenue == 3850000
    ensures GetAdStats().totalViews == 156000
    ensures GetAdStats().totalClicks == 5865
    ensures GetAdStats().averageCtr == Percent(5865.0 / 156000.0 * 100.0)
  {
    PoolTotals();
    var b, sd, i := BannerAds(), SidebarAds(), InlineAds();
    SumAppend(b, sd, PriceOf);
    SumAppend(b, sd, ViewsOf);
    SumAppend(b, sd, ClicksOf);
    SumAppend(b + sd, i, PriceOf);
    SumAppend(b + sd, i, ViewsOf);
    SumAppend(b + sd, i, ClicksOf);
    assert Sum(AllAds(), ViewsOf) == 156000;
    assert Sum(AllAds(), ClicksOf) == 5865;
  }

  /** Every shipped ad, including the two category ads. */
  function ShippedAds(): seq<Ad> {
    AllAds() + AdsByCategory("beginner") + AdsByCategory("professional")
  }

  /** Ids run consecutively from `start`. */
  predicate NumberedFrom(ads: seq<Ad>, start: int) {
    forall i :: 0 <= i < |ads| ==> ads[i].id == start + i
  }

  /** No ad projects more clicks than views, and none projects negative clicks. */
  predicate Plausible(ads: seq<Ad>) {
    forall i :: 0 <= i < |ads| ==> 0 <= ClicksOf(ads[i]) <= ViewsOf(ads[i])
  }

  lemma ConcatWellFormed(a: seq<Ad>, b: seq<Ad>, start: int)
    requires NumberedFrom(a, start) && NumberedFrom(b, start + |a|)
    requires Plausible(a) && Plausible(b)
    ensures NumberedFrom(a + b, start) && Plausible(a + b)
  {
    forall i | 0 <= i < |a + b|
      ensures (a + b)[i].id == start + i && 0 <= ClicksOf((a + b)[i]) <= ViewsOf((a + b)[i])
    {
      if i >= |a| {
        assert (a + b)[i] == b[i - |a|];
      }
    }
  }

  /** Shipped ad ids are pairwise distinct and no shipped ad projects more clicks than views. */
  lemma ShippedAdsWellFormed()
    ensures forall i, j :: 0 <= i < j < |ShippedAds()| ==> ShippedAds()[i].id != ShippedAds()[j].id
    ensures forall i :: 0 <= i < |ShippedAds()| ==> 0 <= ClicksOf(ShippedAds()[i]) <= ViewsOf(ShippedAds()[i])
  {
    var b, sd, inl := BannerAds(), SidebarAds(), InlineAds();
    var beg, pro := AdsByCategory("beginner"), AdsByCategory("professional");
    ConcatWellFormed(b, sd, 1);
    ConcatWellFormed(b + sd, inl, 1);
    ConcatWellFormed(b + sd + inl, beg, 1);
    ConcatWellFormed(b + sd + inl + beg, pro, 1);
    assert ShippedAds() == b + sd + inl + beg + pro;
  }
}
