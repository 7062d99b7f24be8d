/**
  The prize-pool weight engine of the fishing game (backend/service/pool.go).

  The pool lives in two Redis hashes keyed by fish id: one holds the fish
  records, the other the integer draw weights, which are meant to sum to
  TotalWeight. A new user fish is admitted by computing its weight from its
  description, borrowing that much weight from the system fishes in the fixed
  BorrowOrder (never below their floors), and writing the fish with exactly
  the borrowed weight.

  The two hashes are the fields of PoolStore; the borrowing computation is a
  method on values (PlanBorrow) proved against the function BorrowFrom, whose
  properties are the lemmas of this module.
 */
module Pool {
  import opened Wrappers
  import opened MapSum
  import opened IntOps

  // ---------------------------------------------------------------------------
  // Configuration
  // ---------------------------------------------------------------------------

  const TotalWeight := 1000000
  const BaseWeight := 2500
  const WeightMultiplier := 100
  const MaxDescLength := 25

  const EmptyMinWeight := 100000
  const SmallMinWeight := 50000
  const MediumMinWeight := 25000
  const LargeMinWeight := 10000

  const BaseAssetURL := "/assets"
  const ImageExtension := ".png"

  /** Every user fish is worth this many points. */
  const UserFishPoints := 250

  const EmptyFishID := "00000000-0000-0000-0000-000000000001"
  const SmallFishID := "00000000-0000-0000-0000-000000000002"
  const MediumFishID := "00000000-0000-0000-0000-000000000003"
  const LargeFishID := "00000000-0000-0000-0000-000000000004"
  const RareFishID := "00000000-0000-0000-0000-000000000005"

  /** The images a user fish may carry (there is no fish_6). */
  const UserFishImages: seq<string> :=
    ["fish_1", "fish_2", "fish_3", "fish_4", "fish_5", "fish_7", "fish_8", "fish_9", "fish_10"]

  /** One system fish that lends weight, and the weight it always keeps. */
  datatype BorrowInfo = BorrowInfo(fishId: string, minWeight: int)

  /** Lenders, cheapest first; the rare fish never lends. */
  const BorrowOrder: seq<BorrowInfo> := [
    BorrowInfo(EmptyFishID, EmptyMinWeight),
    BorrowInfo(SmallFishID, SmallMinWeight),
    BorrowInfo(MediumFishID, MediumMinWeight),
    BorrowInfo(LargeFishID, LargeMinWeight)
  ]

  // ---------------------------------------------------------------------------
  // Records
  // ---------------------------------------------------------------------------

  /** A record of the items hash (model.LotteryItem as pool.go uses it). */
  datatype Fish = Fish(
    id: string,
    name: string,
    description: string,
    points: int,
    isUserFish: bool,
    wxId: string,
    imageURL: string)

  datatype AddFishRequest = AddFishRequest(name: string, description: string, wxId: string, imageName: string)

  datatype AddFishResponse = AddFishResponse(id: string, name: string, description: string, imageURL: string)

  datatype PoolInfo = PoolInfo(
    totalItems: int,
    items: map<string, Fish>,
    weights: map<string, int>,
    totalWeight: int)

  datatype PoolError =
    | NoUserImages
    | InvalidImageName(name: string)
    | InsufficientWeight(stillNeed: int)
    | SaveFailed

  // ---------------------------------------------------------------------------
  // The seed distribution
  // ---------------------------------------------------------------------------

  const SystemFishes: seq<Fish> := [
    Fish(EmptyFishID, "空军", "今天运气不太好，鱼儿们都在睡觉，只钓到了一堆水草和无尽的等待时光",
         0, false, "", ""),
    Fish(SmallFishID, "小鱼", "一条活泼可爱的小鱼，虽然个头不大但充满活力，游来游去像个调皮的孩子",
         5, false, "", BaseAssetURL + "/small" + ImageExtension),
    Fish(MediumFishID, "中鱼", "体型适中的鱼儿，肉质鲜美，正好够一顿美餐，是钓鱼人最喜欢的收获",
         20, false, "", BaseAssetURL + "/medium" + ImageExtension),
    Fish(LargeFishID, "大鱼", "一条威武的大鱼，力大无穷，上钩时差点把鱼竿都拉断了，绝对是今日最佳战利品",
         100, false, "", BaseAssetURL + "/large" + ImageExtension),
    Fish(RareFishID, "稀有鱼", "传说中的神秘鱼类，全身闪闪发光，据说一生只能遇到一次，是所有钓鱼人梦寐以求的终极目标",
         500, false, "", BaseAssetURL + "/rare" + ImageExtension)
  ]

  const InitialWeights: map<string, int> := map[
    EmptyFishID := 500000,
    SmallFishID := 300000,
    MediumFishID := 150000,
    LargeFishID := 40000,
    RareFishID := 10000
  ]

  /** The items hash after writing `fs` one after the other. */
  function FishMap(fs: seq<Fish>): map<string, Fish>
  {
    if fs == [] then map[] else FishMap(fs[..|fs| - 1])[fs[|fs| - 1].id := fs[|fs| - 1]]
  }

  /** A weight read from the hash; Go reads a missing key as 0. */
  function WeightOf(w: map<string, int>, id: string): int
  {
    if id in w then w[id] else 0
  }

  /** The pool's invariant: the weights sum to TotalWeight and no lender is below its floor. */
  ghost predicate PoolInvariant(w: map<string, int>)
  {
    && Total(w) == TotalWeight
    && forall i | 0 <= i < |BorrowOrder| :: WeightOf(w, BorrowOrder[i].fishId) >= BorrowOrder[i].minWeight
  }

  lemma InitialWeightsValid()
    ensures PoolInvariant(InitialWeights)
  {
    var m0: map<string, int> := map[];
    var m1 := m0[EmptyFishID := 500000];
    var m2 := m1[SmallFishID := 300000];
    var m3 := m2[MediumFishID := 150000];
    var m4 := m3[LargeFishID := 40000];
    var m5 := m4[RareFishID := 10000];
    TotalInsert(m0, EmptyFishID, 500000);
    TotalInsert(m1, SmallFishID, 300000);
    TotalInsert(m2, MediumFishID, 150000);
    TotalInsert(m3, LargeFishID, 40000);
    TotalInsert(m4, RareFishID, 10000);
    assert m5 == InitialWeights;
  }

  // ---------------------------------------------------------------------------
  // The weight of a new fish
  // ---------------------------------------------------------------------------

  /** The Latin-1 characters unicode.IsSpace lists case by case. */
  const Latin1Space: set<char> :=
    {'\t', '\n', '\U{000B}', '\U{000C}', '\r', ' ', '\U{0085}', '\U{00A0}'}

  /** The entries of Unicode's White_Space table above Latin-1, one by one. */
  const WhiteSpaceAboveLatin1: set<char> := {
    '\U{1680}', '\U{2000}', '\U{2001}', '\U{2002}', '\U{2003}', '\U{2004}', '\U{2005}',
    '\U{2006}', '\U{2007}', '\U{2008}', '\U{2009}', '\U{200A}', '\U{2028}', '\U{2029}',
    '\U{202F}', '\U{205F}', '\U{3000}'
  }

  /**
    unicode.IsSpace, which strings.TrimSpace trims: tab through carriage
    return, space, U+0085, U+00A0, and the other Unicode White_Space
    characters (U+1680, U+2000 to U+200A, U+2028, U+2029, U+202F, U+205F,
    U+3000).
   */
  predicate IsSpace(c: char)
    ensures IsSpace(c) <==> if c <= '\U{00FF}' then c in Latin1Space else c in WhiteSpaceAboveLatin1
  {
    || '\t' <= c <= '\r'
    || c == ' '
    || c == '\U{0085}'
    || c == '\U{00A0}'
    || c == '\U{1680}'
    || '\U{2000}' <= c <= '\U{200A}'
    || c == '\U{2028}'
    || c == '\U{2029}'
    || c == '\U{202F}'
    || c == '\U{205F}'
    || c == '\U{3000}'
  }

  /** strings.TrimLeft with unicode.IsSpace: drop the leading white space. */
  function TrimLeft(s: string): (r: string)
    ensures |r| <= |s|
    decreases |s|
  {
    if |s| > 0 && IsSpace(s[0]) then TrimLeft(s[1..]) else s
  }

  /** strings.TrimRight with unicode.IsSpace: drop the trailing white space. */
  function TrimRight(s: string): (r: string)
    ensures |r| <= |s|
    decreases |s|
  {
    if |s| > 0 && IsSpace(s[|s| - 1]) then TrimRight(s[..|s| - 1]) else s
  }

  /** TrimLeft removes a prefix made of white space only, and stops at a non-space. */
  lemma {:induction false} TrimLeftSpec(s: string)
    ensures var r := TrimLeft(s);
            && r == s[|s| - |r|..]
            && (forall i | 0 <= i < |s| - |r| :: IsSpace(s[i]))
            && (r == [] || !IsSpace(r[0]))
    decreases |s|
  {
    if |s| > 0 && IsSpace(s[0]) {
      TrimLeftSpec(s[1..]);
    }
  }

  /** TrimRight removes a suffix made of white space only, and stops at a non-space. */
  lemma {:induction false} TrimRightSpec(s: string)
    ensures var r := TrimRight(s);
            && r == s[..|r|]
            && (forall i | |r| <= i < |s| :: IsSpace(s[i]))
            && (r == [] || !IsSpace(r[|r| - 1]))
    decreases |s|
  {
    if |s| > 0 && IsSpace(s[|s| - 1]) {
      TrimRightSpec(s[..|s| - 1]);
    }
  }

  /**
    strings.TrimSpace: the slice of `s` left after dropping white space at
    both ends; it is empty exactly when `s` is all white space.
   */
  function TrimSpace(s: string): (r: string)
    ensures var lo := |s| - |TrimLeft(s)|;
            && lo + |r| <= |s|
            && r == s[lo..lo + |r|]
            && (forall i | 0 <= i < lo :: IsSpace(s[i]))
            && (forall i | lo + |r| <= i < |s| :: IsSpace(s[i]))
    ensures r == [] || (!IsSpace(r[0]) && !IsSpace(r[|r| - 1]))
    ensures r == [] <==> forall i | 0 <= i < |s| :: IsSpace(s[i])
  {
    TrimBothEnds(s);
    TrimRight(TrimLeft(s))
  }

  /** The facts TrimSpace promises, about TrimRight(TrimLeft(s)). */
  lemma TrimBothEnds(s: string)
    ensures var r := TrimRight(TrimLeft(s)); var lo := |s| - |TrimLeft(s)|;
            && lo + |r| <= |s|
            && r == s[lo..lo + |r|]
            && (forall i | 0 <= i < lo :: IsSpace(s[i]))
            && (forall i | lo + |r| <= i < |s| :: IsSpace(s[i]))
            && (r == [] || (!IsSpace(r[0]) && !IsSpace(r[|r| - 1])))
            && (r == [] <==> forall i | 0 <= i < |s| :: IsSpace(s[i]))
  {
    TrimBothEndsSlice(s);
    TrimBothEndsTail(s);
    TrimBothEndsEdges(s);
    TrimBothEndsBlank(s);
  }

  lemma TrimBothEndsSlice(s: string)
    ensures var l := TrimLeft(s); var r := TrimRight(l); var lo := |s| - |l|;
            && r == s[lo..lo + |r|]
            && (forall i | 0 <= i < lo :: IsSpace(s[i]))
  {
    TrimLeftSpec(s);
    TrimRightSpec(TrimLeft(s));
  }

  lemma TrimBothEndsTail(s: string)
    ensures var l := TrimLeft(s); var r := TrimRight(l); var lo := |s| - |l|;
            forall i | lo + |r| <= i < |s| :: IsSpace(s[i])
  {
    var l := TrimLeft(s);
    var r := TrimRight(l);
    var lo := |s| - |l|;
    TrimLeftSpec(s);
    TrimRightSpec(l);
    forall i | lo + |r| <= i < |s| ensures IsSpace(s[i]) {
      assert s[i] == l[i - lo];
      assert IsSpace(l[i - lo]);
    }
  }

  lemma TrimBothEndsEdges(s: string)
    ensures var r := TrimRight(TrimLeft(s));
            r == [] || (!IsSpace(r[0]) && !IsSpace(r[|r| - 1]))
  {
    var l := TrimLeft(s);
    var r := TrimRight(l);
    TrimLeftSpec(s);
    TrimRightSpec(l);
    if r != [] {
      assert r[0] == l[0];
    }
  }

  lemma TrimBothEndsBlank(s: string)
    ensures TrimRight(TrimLeft(s)) == [] <==> forall i | 0 <= i < |s| :: IsSpace(s[i])
  {
    var l := TrimLeft(s);
    TrimLeftSpec(s);
    TrimRightSpec(l);
    if l != [] {
      assert s[|s| - |l|] == l[0];
    }
  }

  /**
    calculateWeight: BaseWeight plus WeightMultiplier per character of the
    trimmed description, counting at most MaxDescLength characters.
   */
  function CalculateWeight(description: string): (weight: int)
    ensures BaseWeight <= weight <= BaseWeight + MaxDescLength * WeightMultiplier
    ensures |TrimSpace(description)| >= MaxDescLength ==> weight == BaseWeight + MaxDescLength * WeightMultiplier
    ensures |TrimSpace(description)| < MaxDescLength ==>
              weight == BaseWeight + |TrimSpace(description)| * WeightMultiplier
  {
    var descLength := |TrimSpace(description)|;
    var effectiveLength := if descLength < MaxDescLength then descLength else MaxDescLength;
    BaseWeight + effectiveLength * WeightMultiplier
  }

  /** A blank description (empty or all white space) earns only the base weight. */
  lemma BlankDescriptionWeight(description: string)
    requires forall i | 0 <= i < |description| :: IsSpace(description[i])
    ensures CalculateWeight(description) == BaseWeight
  {
  }

  /** A description whose trimmed length differs earns at least as much when it is longer. */
  lemma WeightMonotone(d1: string, d2: string)
    requires |TrimSpace(d1)| <= |TrimSpace(d2)|
    ensures CalculateWeight(d1) <= CalculateWeight(d2)
  {
  }

  // ---------------------------------------------------------------------------
  // The image of a new fish
  // ---------------------------------------------------------------------------

  function ImageURL(imageName: string): string
  {
    BaseAssetURL + "/" + imageName + ImageExtension
  }

  /** Different images never share a URL. */
  lemma ImageURLInjective(a: string, b: string)
    requires ImageURL(a) == ImageURL(b)
    ensures a == b
  {
    var prefix := |BaseAssetURL + "/"|;
    assert a == ImageURL(a)[prefix..prefix + |a|];
    assert b == ImageURL(b)[prefix..prefix + |b|];
  }

  /** getRandomUserImage, with the random index drawn from [0, |UserFishImages|) passed in. */
  function RandomUserImage(randomIndex: nat): (r: Result<string, PoolError>)
    requires randomIndex < |UserFishImages|
    ensures r.Ok? && exists i | 0 <= i < |UserFishImages| :: r.value == ImageURL(UserFishImages[i])
  {
    if |UserFishImages| == 0 then Err(NoUserImages)
    else Ok(ImageURL(UserFishImages[randomIndex]))
  }

  /** What getUserImageURL returns: the named image if it is allowed, a random one if none is named. */
  function ChooseUserImage(imageName: string, randomIndex: nat): (r: Result<string, PoolError>)
    requires randomIndex < |UserFishImages|
    ensures imageName != "" ==> (r.Ok? <==> imageName in UserFishImages)
    ensures imageName != "" && imageName !in UserFishImages ==> r == Err(InvalidImageName(imageName))
    ensures imageName != "" && imageName in UserFishImages ==> r == Ok(ImageURL(imageName))
    ensures imageName == "" ==> r.Ok? && exists i | 0 <= i < |UserFishImages| :: r.value == ImageURL(UserFishImages[i])
  {
    if imageName != "" then
      if imageName in UserFishImages then Ok(ImageURL(imageName)) else Err(InvalidImageName(imageName))
    else
      RandomUserImage(randomIndex)
  }

  /** getUserImageURL, with its linear search of the allowed images. */
  method GetUserImageURL(imageName: string, randomIndex: nat) returns (r: Result<string, PoolError>)
    requires randomIndex < |UserFishImages|
    ensures r == ChooseUserImage(imageName, randomIndex)
  {
    if imageName != "" {
      var found := false;
      var i := 0;
      while i < |UserFishImages|
        invariant 0 <= i <= |UserFishImages|
        invariant found <==> imageName in UserFishImages[..i]
      {
        if UserFishImages[i] == imageName {
          found := true;
          assert UserFishImages[..i + 1] == UserFishImages[..i] + [UserFishImages[i]];
          break;
        }
        assert UserFishImages[..i + 1] == UserFishImages[..i] + [UserFishImages[i]];
        i := i + 1;
      }
      assert found <==> imageName in UserFishImages by {
        if !found {
          assert UserFishImages[..|UserFishImages|] == UserFishImages;
        }
      }
      if !found {
        return Err(InvalidImageName(imageName));
      }
      return Ok(ImageURL(imageName));
    }
    r := RandomUserImage(randomIndex);
  }

  // ---------------------------------------------------------------------------
  // Borrowing
  // ---------------------------------------------------------------------------

  /** The weights after borrowing and the demand left unmet (<= 0 means satisfied). */
  datatype BorrowState = BorrowState(weights: map<string, int>, remaining: int)

  /**
    The borrowing loop of borrowWeight over the lenders `order`: while some
    demand is left, take min(need, current - floor) from the next lender that
    is above its floor.
   */
  function BorrowFrom(w: map<string, int>, order: seq<BorrowInfo>, need: int): (s: BorrowState)
    ensures need <= 0 ==> s == BorrowState(w, need)
    ensures need > 0 ==> 0 <= s.remaining <= need
    decreases |order|
  {
    if |order| == 0 || need <= 0 then BorrowState(w, need)
    else
      var info := order[0];
      var available := WeightOf(w, info.fishId) - info.minWeight;
      if available > 0 then
        var amount := Min(need, available);
        BorrowFrom(w[info.fishId := WeightOf(w, info.fishId) - amount], order[1..], need - amount)
      else
        BorrowFrom(w, order[1..], need)
  }

  /** The weight the lenders in `order` could give up in all. */
  function Headroom(w: map<string, int>, order: seq<BorrowInfo>): (h: int)
    ensures h >= 0
    decreases |order|
  {
    if |order| == 0 then 0
    else Max(0, WeightOf(w, order[0].fishId) - order[0].minWeight) + Headroom(w, order[1..])
  }

  function OrderIds(order: seq<BorrowInfo>): set<string>
  {
    set i | 0 <= i < |order| :: order[i].fishId
  }

  /** A lender list like BorrowOrder: no id twice, no negative floor. */
  predicate ValidOrder(order: seq<BorrowInfo>)
  {
    && (forall i, j | 0 <= i < j < |order| :: order[i].fishId != order[j].fishId)
    && (forall i | 0 <= i < |order| :: order[i].minWeight >= 0)
  }

  lemma BorrowOrderValid()
    ensures ValidOrder(BorrowOrder)
    ensures forall i | 0 <= i < |BorrowOrder| :: BorrowOrder[i].minWeight > 0
  {
  }

  lemma ValidOrderTail(order: seq<BorrowInfo>)
    requires ValidOrder(order) && |order| > 0
    ensures ValidOrder(order[1..])
    ensures OrderIds(order) == {order[0].fishId} + OrderIds(order[1..])
    ensures order[0].fishId !in OrderIds(order[1..])
  {
    var tail := order[1..];
    forall k | k in OrderIds(tail) ensures k in OrderIds(order) && k != order[0].fishId {
      var i :| 0 <= i < |tail| && tail[i].fishId == k;
      assert order[i + 1].fishId == k;
    }
    forall k | k in OrderIds(order) ensures k == order[0].fishId || k in OrderIds(tail) {
      var i :| 0 <= i < |order| && order[i].fishId == k;
      if i > 0 {
        assert tail[i - 1].fishId == k;
      }
    }
  }

  /** Lenders at other ids do not see a change at `id`. */
  lemma {:induction false} HeadroomFrame(w: map<string, int>, order: seq<BorrowInfo>, id: string, v: int)
    requires ValidOrder(order) && id !in OrderIds(order)
    ensures Headroom(w[id := v], order) == Headroom(w, order)
    decreases |order|
  {
    if |order| > 0 {
      ValidOrderTail(order);
      HeadroomFrame(w, order[1..], id, v);
    }
  }

  /** Borrowing never adds or removes a key, and never touches an id outside `order`. */
  lemma {:induction false} BorrowFrame(w: map<string, int>, order: seq<BorrowInfo>, need: int)
    requires ValidOrder(order)
    ensures BorrowFrom(w, order, need).weights.Keys == w.Keys
    ensures forall k | k in w && k !in OrderIds(order) :: BorrowFrom(w, order, need).weights[k] == w[k]
    decreases |order|
  {
    if |order| > 0 && need > 0 {
      ValidOrderTail(order);
      var info := order[0];
      var available := WeightOf(w, info.fishId) - info.minWeight;
      if available > 0 {
        var amount := Min(need, available);
        var w' := w[info.fishId := WeightOf(w, info.fishId) - amount];
        assert info.fishId in w;
        BorrowFrame(w', order[1..], need - amount);
      } else {
        BorrowFrame(w, order[1..], need);
      }
    }
  }

  /** The total drops by exactly the amount borrowed. */
  lemma {:induction false} BorrowConserves(w: map<string, int>, order: seq<BorrowInfo>, need: int)
    requires ValidOrder(order)
    ensures var s := BorrowFrom(w, order, need); Total(s.weights) == Total(w) - (need - s.remaining)
    decreases |order|
  {
    if |order| > 0 && need > 0 {
      ValidOrderTail(order);
      var info := order[0];
      var available := WeightOf(w, info.fishId) - info.minWeight;
      if available > 0 {
        var amount := Min(need, available);
        var w' := w[info.fishId := WeightOf(w, info.fishId) - amount];
        TotalUpdate(w, info.fishId, WeightOf(w, info.fishId) - amount);
        BorrowConserves(w', order[1..], need - amount);
      } else {
        BorrowConserves(w, order[1..], need);
      }
    }
  }

  /**
    A positive demand is met in full exactly when the lenders' headroom covers
    it; otherwise all the headroom is taken and the rest stays unmet.
   */
  lemma {:induction false} BorrowAmount(w: map<string, int>, order: seq<BorrowInfo>, need: int)
    requires ValidOrder(order) && need > 0
    ensures BorrowFrom(w, order, need).remaining == need - Min(need, Headroom(w, order))
    decreases |order|
  {
    if |order| > 0 {
      ValidOrderTail(order);
      var info := order[0];
      var available := WeightOf(w, info.fishId) - info.minWeight;
      if available > 0 {
        var amount := Min(need, available);
        var w' := w[info.fishId := WeightOf(w, info.fishId) - amount];
        if amount < need {
          BorrowAmount(w', order[1..], need - amount);
          HeadroomFrame(w, order[1..], info.fishId, WeightOf(w, info.fishId) - amount);
        }
      } else {
        BorrowAmount(w, order[1..], need);
      }
    }
  }

  /**
    No lender goes below its floor: a lender at or below its floor keeps its
    weight, and one above it ends between its floor and its old weight.
   */
  lemma {:induction false} BorrowFloors(w: map<string, int>, order: seq<BorrowInfo>, need: int, i: int)
    requires ValidOrder(order) && 0 <= i < |order|
    ensures var id, floor, nw := order[i].fishId, order[i].minWeight, BorrowFrom(w, order, need).weights;
            && (WeightOf(w, id) <= floor ==> WeightOf(nw, id) == WeightOf(w, id))
            && (WeightOf(w, id) > floor ==> floor <= WeightOf(nw, id) <= WeightOf(w, id))
    decreases |order|
  {
    if need > 0 {
      ValidOrderTail(order);
      var info := order[0];
      var available := WeightOf(w, info.fishId) - info.minWeight;
      var w' := if available > 0 then w[info.fishId := WeightOf(w, info.fishId) - Min(need, available)] else w;
      var need' := if available > 0 then need - Min(need, available) else need;
      assert BorrowFrom(w, order, need) == BorrowFrom(w', order[1..], need');
      if i == 0 {
        BorrowFrame(w', order[1..], need');
      } else {
        assert order[1..][i - 1] == order[i];
        BorrowFloors(w', order[1..], need', i - 1);
      }
    }
  }

  /**
    Borrowing is greedy in list order: a later lender gives weight only if
    every earlier lender has been brought down to its floor or below.
   */
  lemma {:induction false} BorrowGreedy(w: map<string, int>, order: seq<BorrowInfo>, need: int, i: int, j: int)
    requires ValidOrder(order) && 0 <= i < j < |order|
    ensures var nw := BorrowFrom(w, order, need).weights;
            WeightOf(nw, order[j].fishId) < WeightOf(w, order[j].fishId) ==>
              WeightOf(nw, order[i].fishId) <= order[i].minWeight
    decreases |order|
  {
    if need > 0 {
      ValidOrderTail(order);
      var info := order[0];
      var available := WeightOf(w, info.fishId) - info.minWeight;
      var w' := if available > 0 then w[info.fishId := WeightOf(w, info.fishId) - Min(need, available)] else w;
      var need' := if available > 0 then need - Min(need, available) else need;
      assert BorrowFrom(w, order, need) == BorrowFrom(w', order[1..], need');
      assert order[1..][j - 1] == order[j];
      if i == 0 {
        BorrowFrame(w', order[1..], need');
        if available > 0 && need <= available {
          assert BorrowFrom(w', order[1..], need') == BorrowState(w', need');
        }
      } else {
        assert order[1..][i - 1] == order[i];
        BorrowGreedy(w', order[1..], need', i - 1, j - 1);
      }
    }
  }

  /**
    The computation of borrowWeight: copy the current weights, then walk
    BorrowOrder taking weight from each lender above its floor until the
    demand is met.
   */
  method PlanBorrow(currentWeights: map<string, int>, needWeight: int)
    returns (newWeights: map<string, int>, remainingNeed: int)
    ensures BorrowState(newWeights, remainingNeed) == BorrowFrom(currentWeights, BorrowOrder, needWeight)
  {
    remainingNeed := needWeight;
    newWeights := currentWeights;
    var i := 0;
    while i < |BorrowOrder|
      invariant 0 <= i <= |BorrowOrder|
      invariant BorrowFrom(newWeights, BorrowOrder[i..], remainingNeed)
                == BorrowFrom(currentWeights, BorrowOrder, needWeight)
    {
      if remainingNeed <= 0 {
        break;
      }
      var info := BorrowOrder[i];
      var currentWeight := WeightOf(newWeights, info.fishId);
      var availableWeight := currentWeight - info.minWeight;
      assert BorrowOrder[i..][1..] == BorrowOrder[i + 1..];
      if availableWeight > 0 {
        var borrowAmount := Min(remainingNeed, availableWeight);
        newWeights := newWeights[info.fishId := currentWeight - borrowAmount];
        remainingNeed := remainingNeed - borrowAmount;
      }
      i := i + 1;
    }
  }

  /** The fields borrowWeight writes back: those whose value changed. */
  function ChangedEntries(current: map<string, int>, next: map<string, int>): (r: map<string, int>)
    ensures forall k | k in r :: k in next && r[k] == next[k] && WeightOf(current, k) != next[k]
    ensures forall k | k in next && k !in r :: WeightOf(current, k) == next[k]
    ensures current.Keys == next.Keys ==> current + r == next
  {
    var r := map k | k in next && WeightOf(current, k) != next[k] :: next[k];
    assert current.Keys == next.Keys ==> (current + r).Keys == next.Keys;
    r
  }

  /**
    The write set of a successful borrow holds only lenders of BorrowOrder, and
    writing it over the current hash gives the planned weights.
   */
  lemma BorrowWriteSet(w: map<string, int>, need: int)
    ensures var nw := BorrowFrom(w, BorrowOrder, need).weights;
            && ChangedEntries(w, nw).Keys <= OrderIds(BorrowOrder)
            && w + ChangedEntries(w, nw) == nw
  {
    BorrowOrderValid();
    BorrowFrame(w, BorrowOrder, need);
    var nw := BorrowFrom(w, BorrowOrder, need).weights;
    assert w + ChangedEntries(w, nw) == nw;
  }

  /** A successful admission keeps the pool invariant: the new fish gets exactly what was borrowed. */
  lemma AdmitPreservesInvariant(w: map<string, int>, fishId: string, weight: int)
    requires PoolInvariant(w) && fishId !in w && weight > 0
    requires BorrowFrom(w, BorrowOrder, weight).remaining <= 0
    ensures PoolInvariant(BorrowFrom(w, BorrowOrder, weight).weights[fishId := weight])
  {
    BorrowOrderValid();
    var nw := BorrowFrom(w, BorrowOrder, weight).weights;
    BorrowAmount(w, BorrowOrder, weight);
    BorrowConserves(w, BorrowOrder, weight);
    BorrowFrame(w, BorrowOrder, weight);
    TotalInsert(nw, fishId, weight);
    forall i | 0 <= i < |BorrowOrder|
      ensures WeightOf(nw[fishId := weight], BorrowOrder[i].fishId) >= BorrowOrder[i].minWeight
    {
      BorrowFloors(w, BorrowOrder, weight, i);
      assert BorrowOrder[i].fishId in w;
    }
  }

  /** For a positive demand, the borrow fails exactly when the lenders' total headroom is below the demand. */
  lemma InsufficientMeansExhausted(w: map<string, int>, need: int)
    requires need > 0
    ensures BorrowFrom(w, BorrowOrder, need).remaining > 0 <==> Headroom(w, BorrowOrder) < need
  {
    BorrowOrderValid();
    BorrowAmount(w, BorrowOrder, need);
  }

  /** The first admission into the seeded pool with weight 2700 takes it all from the empty fish. */
  lemma FirstAdmissionFromEmpty()
    ensures BorrowFrom(InitialWeights, BorrowOrder, 2700)
            == BorrowState(InitialWeights[EmptyFishID := 497300], 0)
  {
  }

  /** At the boundary the cascade moves on: the empty fish stops at its floor and the small fish pays the rest. */
  lemma CascadeAtFloor(w: map<string, int>)
    requires WeightOf(w, EmptyFishID) == EmptyMinWeight + 1000
    requires WeightOf(w, SmallFishID) == 300000
    ensures BorrowFrom(w, BorrowOrder, 2700)
            == BorrowState(w[EmptyFishID := EmptyMinWeight][SmallFishID := 298300], 0)
  {
    assert EmptyFishID[35] != SmallFishID[35];
    var w1 := w[EmptyFishID := EmptyMinWeight];
    assert BorrowFrom(w, BorrowOrder, 2700) == BorrowFrom(w1, BorrowOrder[1..], 1700);
    assert BorrowOrder[1..][0] == BorrowInfo(SmallFishID, SmallMinWeight);
    assert WeightOf(w1, SmallFishID) == 300000;
    assert BorrowFrom(w1, BorrowOrder[1..], 1700)
           == BorrowFrom(w1[SmallFishID := 298300], BorrowOrder[1..][1..], 0);
  }

  // ---------------------------------------------------------------------------
  // The store
  // ---------------------------------------------------------------------------

  /** The two Redis hashes of the pool, and the PoolService operations on them. */
  class PoolStore {
    /** lottery:pool:items, fish id to record. */
    var items: map<string, Fish>
    /** lottery:pool:weights, fish id to weight. */
    var weights: map<string, int>

    constructor ()
      ensures items == map[] && weights == map[]
    {
      items := map[];
      weights := map[];
    }

    /**
      InitializePool: when the items hash does not exist yet, write the five
      system fishes and the seed weights; otherwise do nothing.
     */
    method InitializePool()
      modifies this
      ensures old(items) != map[] ==> items == old(items) && weights == old(weights)
      ensures old(items) == map[] ==> items == FishMap(SystemFishes) && weights == old(weights) + InitialWeights
      ensures old(items) == map[] && old(weights) == map[] ==> PoolInvariant(weights)
    {
      if items != map[] {
        return;
      }
      WriteFishes(SystemFishes);
      WriteWeights(InitialWeights);
      assert weights == old(weights) + InitialWeights;
      if old(weights) == map[] {
        assert weights == InitialWeights;
        InitialWeightsValid();
      }
    }

    /** Write the records `fs` into an empty items hash, one after the other. */
    method WriteFishes(fs: seq<Fish>)
      requires items == map[]
      modifies this`items
      ensures items == FishMap(fs)
    {
      var i := 0;
      while i < |fs|
        invariant 0 <= i <= |fs|
        invariant items == FishMap(fs[..i])
      {
        assert fs[..i + 1][..i] == fs[..i];
        items := items[fs[i].id := fs[i]];
        i := i + 1;
      }
      assert fs[..i] == fs;
    }

    /** Write every field of `m` into the weights hash. */
    method WriteWeights(m: map<string, int>)
      modifies this`weights
      ensures weights == old(weights) + m
    {
      var pending := m.Keys;
      while pending != {}
        invariant pending <= m.Keys
        invariant weights.Keys == old(weights).Keys + (m.Keys - pending)
        invariant forall k | k in weights ::
                    weights[k] == if k in m && k !in pending then m[k] else old(weights)[k]
        decreases pending
      {
        var id :| id in pending;
        weights := weights[id := m[id]];
        pending := pending - {id};
      }
      assert weights == old(weights) + m;
    }

    /** Write the fields of `next` whose value differs from `current`, over a weights hash holding `current`. */
    method WriteChanged(current: map<string, int>, next: map<string, int>) returns (written: map<string, int>)
      requires weights == current && next.Keys == current.Keys
      modifies this`weights
      ensures weights == next && written == ChangedEntries(current, next)
    {
      written := map[];
      var pending := next.Keys;
      while pending != {}
        invariant pending <= next.Keys
        invariant weights.Keys == current.Keys
        invariant forall k | k in weights :: weights[k] == if k in pending then current[k] else next[k]
        invariant forall k :: k in written <==> k in next && k !in pending && WeightOf(current, k) != next[k]
        invariant forall k | k in written :: written[k] == next[k]
        decreases pending
      {
        var id :| id in pending;
        if WeightOf(current, id) != next[id] {
          weights := weights[id := next[id]];
          written := written[id := next[id]];
        }
        pending := pending - {id};
      }
      assert weights == next;
      assert written == ChangedEntries(current, next);
    }

    /** GetPool: every record, every weight, and the weights' sum. */
    method GetPool() returns (info: PoolInfo)
      ensures info == PoolInfo(|items|, items, weights, Total(weights))
    {
      var totalWeight := 0;
      var pending := weights.Keys;
      while pending != {}
        invariant pending <= weights.Keys
        invariant totalWeight + SumOver(weights, pending) == Total(weights)
        decreases pending
      {
        var id :| id in pending;
        SumOverPick(weights, pending, id);
        totalWeight := totalWeight + weights[id];
        pending := pending - {id};
      }
      info := PoolInfo(|items|, items, weights, totalWeight);
    }

    /**
      borrowWeight: plan the borrow on a copy of the weights; if demand is left
      over, fail without writing; otherwise write back the changed fields.
      `written` is the set of fields written, with their new values.
     */
    method BorrowWeight(needWeight: int) returns (err: Option<PoolError>, written: map<string, int>)
      modifies this
      ensures items == old(items)
      ensures var plan := BorrowFrom(old(weights), BorrowOrder, needWeight);
              if plan.remaining > 0 then
                err == Some(InsufficientWeight(plan.remaining)) && weights == old(weights) && written == map[]
              else
                err == None && weights == plan.weights && written == ChangedEntries(old(weights), plan.weights)
    {
      var currentWeights := weights;
      var newWeights, remainingNeed := PlanBorrow(currentWeights, needWeight);
      if remainingNeed > 0 {
        return Some(InsufficientWeight(remainingNeed)), map[];
      }
      BorrowOrderValid();
      BorrowFrame(currentWeights, BorrowOrder, needWeight);
      written := WriteChanged(currentWeights, newWeights);
      err := None;
    }

    /**
      AddFish, with the new fish's id, the random image index and the outcome
      of the final save passed in. The borrowed weights are committed before
      the fish is saved, so a failed save leaves the total short by the fish's
      weight.
     */
    method AddFish(req: AddFishRequest, fishId: string, imageIndex: nat, saveOk: bool)
      returns (r: Result<AddFishResponse, PoolError>)
      requires imageIndex < |UserFishImages|
      requires fishId !in items && fishId !in weights
      modifies this
      ensures var image := ChooseUserImage(req.imageName, imageIndex);
              image.Err? ==> r == Err(image.error) && items == old(items) && weights == old(weights)
      ensures var image := ChooseUserImage(req.imageName, imageIndex);
              var weight := CalculateWeight(req.description);
              var plan := BorrowFrom(old(weights), BorrowOrder, weight);
              image.Ok? ==>
                if plan.remaining > 0 then
                  r == Err(InsufficientWeight(plan.remaining)) && items == old(items) && weights == old(weights)
                else if !saveOk then
                  r == Err(SaveFailed) && items == old(items) && weights == plan.weights
                  && Total(weights) == old(Total(weights)) - weight
                else
                  && r == Ok(AddFishResponse(fishId, req.name, req.description, image.value))
                  && items == old(items)[fishId := Fish(fishId, req.name, req.description, UserFishPoints,
                                                        true, req.wxId, image.value)]
                  && weights == plan.weights[fishId := weight]
      ensures r.Ok? && old(PoolInvariant(weights)) ==> PoolInvariant(weights)
      ensures r.Ok? ==> Total(weights) == old(Total(weights))
    {
      var weight := CalculateWeight(req.description);
      var imageURL := GetUserImageURL(req.imageName, imageIndex);
      if imageURL.Err? {
        return Err(imageURL.error);
      }
      var newFish := Fish(fishId, req.name, req.description, UserFishPoints, true, req.wxId, imageURL.value);
      ghost var before := weights;
      var borrowErr, _ := BorrowWeight(weight);
      if borrowErr.Some? {
        return Err(borrowErr.value);
      }
      BorrowOrderValid();
      BorrowAmount(before, BorrowOrder, weight);
      BorrowConserves(before, BorrowOrder, weight);
      if !saveOk {
        return Err(SaveFailed);
      }
      BorrowFrame(before, BorrowOrder, weight);
      TotalInsert(weights, fishId, weight);
      items := items[fishId := newFish];
      weights := weights[fishId := weight];
      r := Ok(AddFishResponse(fishId, req.name, req.description, newFish.imageURL));
      if PoolInvariant(before) {
        AdmitPreservesInvariant(before, fishId, weight);
      }
    }
  }
}
