/**
 * Campaign resolution, stated declaratively: a campaign qualifies when the
 * cart holds enough units of its category; each category contributes the
 * largest candidate discount among its qualifying campaigns; the campaign
 * discount of the cart is the sum of those per-category maxima.
 * The loop of `getCampaignDiscount` is proved equal to this in cart.dfy.
 */
module Campaigns {
  import opened Wrappers
  import opened Catalog
  import opened LineItems

  /** A campaign applies when some line matches its category and the matching lines hold at least its minimum quantity. */
  predicate Qualifies(items: seq<CartItem>, c: Campaign) {
    var m := Matching(items, c.category.id);
    |m| > 0 && TotalQuantity(m) >= c.quantity
  }

  /** The discount a campaign would give: its fixed amount, or a percentage of what the matching lines cost. */
  function Candidate(items: seq<CartItem>, c: Campaign): real {
    if c.discountType == Rate then ItemsAmount(Matching(items, c.category.id)) * c.discount / 100.0
    else c.discount
  }

  /** The categories of the qualifying campaigns, each once, in the order a campaign first qualifies for it. */
  function QualifyingCategories(items: seq<CartItem>, cs: seq<Campaign>): seq<CategoryId>
    decreases |cs|
  {
    if cs == [] then []
    else
      var init, c := cs[..|cs| - 1], cs[|cs| - 1];
      var ks := QualifyingCategories(items, init);
      if Qualifies(items, c) && c.category.id !in ks then ks + [c.category.id] else ks
  }

  /** No element occurs twice. */
  predicate Distinct(ks: seq<CategoryId>) {
    forall i, j :: 0 <= i < j < |ks| ==> ks[i] != ks[j]
  }

  /** The candidate discounts of the qualifying campaigns of category `k`, in campaign order; there are some exactly when `k` qualifies. */
  function Candidates(items: seq<CartItem>, cs: seq<Campaign>, k: CategoryId): (r: seq<real>)
    ensures |r| == 0 <==> k !in QualifyingCategories(items, cs)
    decreases |cs|
  {
    if cs == [] then []
    else
      var init, c := cs[..|cs| - 1], cs[|cs| - 1];
      var r := Candidates(items, init, k);
      if Qualifies(items, c) && c.category.id == k then r + [Candidate(items, c)] else r
  }

  /** The largest element of a non-empty sequence; on a tie the earlier element is kept. */
  function Max(s: seq<real>): (m: real)
    requires |s| > 0
    ensures m in s
    ensures forall i :: 0 <= i < |s| ==> s[i] <= m
  {
    if |s| == 1 then s[0]
    else
      var p := Max(s[..|s| - 1]);
      if s[|s| - 1] > p then s[|s| - 1] else p
  }

  /** The discount category `k` receives: the best candidate among its qualifying campaigns. */
  function BestCandidate(items: seq<CartItem>, cs: seq<Campaign>, k: CategoryId): real
    requires k in QualifyingCategories(items, cs)
  {
    Max(Candidates(items, cs, k))
  }

  /** Sum of the best candidates of the categories `ks`. */
  function SumBest(items: seq<CartItem>, cs: seq<Campaign>, ks: seq<CategoryId>): real
    requires forall k :: k in ks ==> k in QualifyingCategories(items, cs)
  {
    if ks == [] then 0.0
    else SumBest(items, cs, ks[..|ks| - 1]) + BestCandidate(items, cs, ks[|ks| - 1])
  }

  /** The campaign discount of a cart: over the distinct qualifying categories, the sum of each one's best candidate. */
  function CampaignDiscountOf(items: seq<CartItem>, cs: seq<Campaign>): real {
    SumBest(items, cs, QualifyingCategories(items, cs))
  }

  /** A category qualifies exactly when some campaign of it qualifies. */
  lemma {:induction false} QualifyingCategoriesMembers(items: seq<CartItem>, cs: seq<Campaign>)
    ensures forall k :: k in QualifyingCategories(items, cs) <==>
              exists c :: c in cs && Qualifies(items, c) && c.category.id == k
    decreases |cs|
  {
    if cs != [] {
      var init, c := cs[..|cs| - 1], cs[|cs| - 1];
      assert cs == init + [c];
      QualifyingCategoriesMembers(items, init);
      forall k | exists c' :: c' in cs && Qualifies(items, c') && c'.category.id == k
        ensures k in QualifyingCategories(items, cs)
      {
        var c' :| c' in cs && Qualifies(items, c') && c'.category.id == k;
        if c' != c {
          assert c' in init;
        }
      }
    }
  }

  /** No category is listed twice. */
  lemma {:induction false} QualifyingCategoriesDistinct(items: seq<CartItem>, cs: seq<Campaign>)
    ensures Distinct(QualifyingCategories(items, cs))
    decreases |cs|
  {
    if cs != [] {
      var init, c := cs[..|cs| - 1], cs[|cs| - 1];
      QualifyingCategoriesDistinct(items, init);
      var ks := QualifyingCategories(items, init);
      if Qualifies(items, c) && c.category.id !in ks {
        var ks' := ks + [c.category.id];
        forall i, j | 0 <= i < j < |ks'| ensures ks'[i] != ks'[j] {
          assert ks'[i] == ks[i] && ks[i] in ks;
          if j < |ks| {
            assert ks'[j] == ks[j];
            assert ks[i] != ks[j];
          } else {
            assert ks'[j] == c.category.id;
          }
        }
      }
    }
  }

  /** The candidates of category `k` are exactly those of its qualifying campaigns. */
  lemma {:induction false} CandidatesMembers(items: seq<CartItem>, cs: seq<Campaign>, k: CategoryId)
    ensures forall c :: c in cs && Qualifies(items, c) && c.category.id == k ==> Candidate(items, c) in Candidates(items, cs, k)
    ensures forall x :: x in Candidates(items, cs, k) ==>
              exists c :: c in cs && Qualifies(items, c) && c.category.id == k && Candidate(items, c) == x
    decreases |cs|
  {
    if cs != [] {
      var init, last := cs[..|cs| - 1], cs[|cs| - 1];
      assert cs == init + [last];
      CandidatesMembers(items, init, k);
      forall c | c in cs && Qualifies(items, c) && c.category.id == k
        ensures Candidate(items, c) in Candidates(items, cs, k)
      {
        if c != last {
          assert c in init;
        }
      }
    }
  }

  /** A category's discount is the largest candidate of its qualifying campaigns: no smaller than any, and equal to one. */
  lemma BestCandidateIsBest(items: seq<CartItem>, cs: seq<Campaign>, k: CategoryId)
    requires k in QualifyingCategories(items, cs)
    ensures forall c :: c in cs && Qualifies(items, c) && c.category.id == k ==> Candidate(items, c) <= BestCandidate(items, cs, k)
    ensures exists c :: c in cs && Qualifies(items, c) && c.category.id == k && Candidate(items, c) == BestCandidate(items, cs, k)
  {
    var r := Candidates(items, cs, k);
    var best := BestCandidate(items, cs, k);
    CandidatesMembers(items, cs, k);
    forall c | c in cs && Qualifies(items, c) && c.category.id == k
      ensures Candidate(items, c) <= best
    {
      var i :| 0 <= i < |r| && r[i] == Candidate(items, c);
    }
  }

  // ---------------------------------------------------------------------
  // The record list `getCampaignDiscount` builds

  /** One entry of `campaignDiscounts`: the campaign currently chosen for a category and the discount it gives. */
  datatype CampaignDiscount = CampaignDiscount(campaign: Campaign, appliedDiscount: real)

  /** `campaignDiscounts.Find(c => c.campaign.category == category)`, as a position. */
  function FindCategory(cds: seq<CampaignDiscount>, k: CategoryId): (r: Option<nat>)
    ensures r.None? <==> forall j :: 0 <= j < |cds| ==> cds[j].campaign.category.id != k
    ensures r.Some? ==> r.value < |cds| && cds[r.value].campaign.category.id == k
    ensures r.Some? ==> forall j :: 0 <= j < r.value ==> cds[j].campaign.category.id != k
  {
    if cds == [] then None
    else if cds[0].campaign.category.id == k then Some(0)
    else match FindCategory(cds[1..], k)
      case None => None
      case Some(j) => Some(j + 1)
  }

  /** `campaignDiscounts.Sum(item => item.appliedDiscount)`. */
  function AppliedTotal(cds: seq<CampaignDiscount>): real {
    if cds == [] then 0.0 else AppliedTotal(cds[..|cds| - 1]) + cds[|cds| - 1].appliedDiscount
  }

  /**
   * What the record list holds after the campaigns `seen` have been
   * processed: one record per qualifying category, in the order the
   * categories first qualified, each naming a qualifying campaign of that
   * category whose candidate is the category's best.
   */
  predicate RecordsMatch(items: seq<CartItem>, seen: seq<Campaign>, cds: seq<CampaignDiscount>) {
    var ks := QualifyingCategories(items, seen);
    && |cds| == |ks|
    && forall j :: 0 <= j < |cds| ==>
         && cds[j].campaign.category.id == ks[j]
         && cds[j].campaign in seen
         && Qualifies(items, cds[j].campaign)
         && cds[j].appliedDiscount == Candidate(items, cds[j].campaign)
         && cds[j].appliedDiscount == BestCandidate(items, seen, ks[j])
  }

  /** The record list sums to the specification when it holds, position by position, each category's best candidate. */
  lemma {:induction false} AppliedTotalIsSumBest(items: seq<CartItem>, cs: seq<Campaign>, cds: seq<CampaignDiscount>, ks: seq<CategoryId>)
    requires forall k :: k in ks ==> k in QualifyingCategories(items, cs)
    requires |cds| == |ks|
    requires forall j :: 0 <= j < |ks| ==> cds[j].appliedDiscount == BestCandidate(items, cs, ks[j])
    ensures AppliedTotal(cds) == SumBest(items, cs, ks)
  {
    if ks != [] {
      var n := |ks| - 1;
      AppliedTotalIsSumBest(items, cs, cds[..n], ks[..n]);
    }
  }

  /** Once every campaign is processed, the records sum to the campaign discount. */
  lemma RecordsTotal(items: seq<CartItem>, cs: seq<Campaign>, cds: seq<CampaignDiscount>)
    requires RecordsMatch(items, cs, cds)
    ensures AppliedTotal(cds) == CampaignDiscountOf(items, cs)
  {
    AppliedTotalIsSumBest(items, cs, cds, QualifyingCategories(items, cs));
  }

  /** A campaign that does not qualify leaves the records as they are. */
  lemma RecordsSkip(items: seq<CartItem>, seen: seq<Campaign>, c: Campaign, cds: seq<CampaignDiscount>)
    requires RecordsMatch(items, seen, cds)
    requires !Qualifies(items, c)
    ensures RecordsMatch(items, seen + [c], cds)
  {
    QualifyingCategoriesAppend(items, seen, c);
    var ks := QualifyingCategories(items, seen);
    forall j | 0 <= j < |cds|
      ensures cds[j].campaign.category.id == ks[j]
      ensures cds[j].campaign in seen + [c]
      ensures Qualifies(items, cds[j].campaign)
      ensures cds[j].appliedDiscount == Candidate(items, cds[j].campaign)
      ensures cds[j].appliedDiscount == BestCandidate(items, seen + [c], ks[j])
    {
      BestCandidateAppend(items, seen, c, ks[j]);
    }
  }

  /** A qualifying campaign of a category without a record adds a record at the end. */
  lemma RecordsAdd(items: seq<CartItem>, seen: seq<Campaign>, c: Campaign, cds: seq<CampaignDiscount>)
    requires RecordsMatch(items, seen, cds)
    requires Qualifies(items, c) && FindCategory(cds, c.category.id).None?
    ensures RecordsMatch(items, seen + [c], cds + [CampaignDiscount(c, Candidate(items, c))])
  {
    var k := c.category.id;
    var ks := QualifyingCategories(items, seen);
    forall j | 0 <= j < |ks| ensures ks[j] != k {
      assert cds[j].campaign.category.id == ks[j];
    }
    QualifyingCategoriesAppend(items, seen, c);
    var rec := CampaignDiscount(c, Candidate(items, c));
    var cds' := cds + [rec];
    var ks' := ks + [k];
    forall j | 0 <= j < |cds'|
      ensures cds'[j].campaign.category.id == ks'[j]
      ensures cds'[j].campaign in seen + [c]
      ensures Qualifies(items, cds'[j].campaign)
      ensures cds'[j].appliedDiscount == Candidate(items, cds'[j].campaign)
      ensures cds'[j].appliedDiscount == BestCandidate(items, seen + [c], ks'[j])
    {
      BestCandidateAppend(items, seen, c, ks'[j]);
      if j < |cds| {
        assert cds'[j] == cds[j] && ks'[j] == ks[j];
      } else {
        assert cds'[j] == rec && ks'[j] == k;
      }
    }
  }

  /** A qualifying campaign strictly better than its category's record replaces that record in place. */
  lemma RecordsReplace(items: seq<CartItem>, seen: seq<Campaign>, c: Campaign, cds: seq<CampaignDiscount>, j: nat)
    requires RecordsMatch(items, seen, cds)
    requires Qualifies(items, c) && FindCategory(cds, c.category.id) == Some(j)
    requires Candidate(items, c) > cds[j].appliedDiscount
    ensures RecordsMatch(items, seen + [c], cds[j := CampaignDiscount(c, Candidate(items, c))])
  {
    var k := c.category.id;
    var ks := QualifyingCategories(items, seen);
    QualifyingCategoriesAppend(items, seen, c);
    QualifyingCategoriesDistinct(items, seen);
    assert ks[j] == k;
    var rec := CampaignDiscount(c, Candidate(items, c));
    var cds' := cds[j := rec];
    forall i | 0 <= i < |cds'|
      ensures cds'[i].campaign.category.id == ks[i]
      ensures cds'[i].campaign in seen + [c]
      ensures Qualifies(items, cds'[i].campaign)
      ensures cds'[i].appliedDiscount == Candidate(items, cds'[i].campaign)
      ensures cds'[i].appliedDiscount == BestCandidate(items, seen + [c], ks[i])
    {
      BestCandidateAppend(items, seen, c, ks[i]);
      if i == j {
        assert cds'[i] == rec;
      } else {
        assert cds'[i] == cds[i] && ks[i] != k;
      }
    }
  }

  /** A qualifying campaign no better than its category's record leaves the records as they are: on a tie the campaign found first stays. */
  lemma RecordsKeep(items: seq<CartItem>, seen: seq<Campaign>, c: Campaign, cds: seq<CampaignDiscount>, j: nat)
    requires RecordsMatch(items, seen, cds)
    requires Qualifies(items, c) && FindCategory(cds, c.category.id) == Some(j)
    requires Candidate(items, c) <= cds[j].appliedDiscount
    ensures RecordsMatch(items, seen + [c], cds)
  {
    var ks := QualifyingCategories(items, seen);
    QualifyingCategoriesAppend(items, seen, c);
    forall i | 0 <= i < |cds|
      ensures cds[i].campaign.category.id == ks[i]
      ensures cds[i].campaign in seen + [c]
      ensures Qualifies(items, cds[i].campaign)
      ensures cds[i].appliedDiscount == Candidate(items, cds[i].campaign)
      ensures cds[i].appliedDiscount == BestCandidate(items, seen + [c], ks[i])
    {
      BestCandidateAppend(items, seen, c, ks[i]);
    }
  }

  // ---------------------------------------------------------------------
  // How the specification changes when one campaign is appended

  lemma QualifyingCategoriesAppend(items: seq<CartItem>, cs: seq<Campaign>, c: Campaign)
    ensures QualifyingCategories(items, cs + [c])
            == if Qualifies(items, c) && c.category.id !in QualifyingCategories(items, cs)
               then QualifyingCategories(items, cs) + [c.category.id]
               else QualifyingCategories(items, cs)
  {
    assert (cs + [c])[..|cs|] == cs;
  }

  lemma CandidatesAppend(items: seq<CartItem>, cs: seq<Campaign>, c: Campaign, k: CategoryId)
    ensures Candidates(items, cs + [c], k)
            == if Qualifies(items, c) && c.category.id == k
               then Candidates(items, cs, k) + [Candidate(items, c)]
               else Candidates(items, cs, k)
  {
    assert (cs + [c])[..|cs|] == cs;
  }

  lemma MaxAppend(s: seq<real>, x: real)
    requires |s| > 0
    ensures Max(s + [x]) == if x > Max(s) then x else Max(s)
  {
    assert (s + [x])[..|s|] == s;
  }

  /** A category's best candidate after one more campaign: the new candidate replaces the old best only when strictly larger. */
  lemma BestCandidateAppend(items: seq<CartItem>, cs: seq<Campaign>, c: Campaign, k: CategoryId)
    requires k in QualifyingCategories(items, cs + [c])
    ensures c.category.id != k || !Qualifies(items, c) ==>
              k in QualifyingCategories(items, cs) && BestCandidate(items, cs + [c], k) == BestCandidate(items, cs, k)
    ensures c.category.id == k && Qualifies(items, c) && k !in QualifyingCategories(items, cs) ==>
              BestCandidate(items, cs + [c], k) == Candidate(items, c)
    ensures c.category.id == k && Qualifies(items, c) && k in QualifyingCategories(items, cs) ==>
              BestCandidate(items, cs + [c], k)
              == if Candidate(items, c) > BestCandidate(items, cs, k) then Candidate(items, c) else BestCandidate(items, cs, k)
  {
    QualifyingCategoriesAppend(items, cs, c);
    CandidatesAppend(items, cs, c, k);
    var s := Candidates(items, cs, k);
    if c.category.id == k && Qualifies(items, c) {
      if k in QualifyingCategories(items, cs) {
        MaxAppend(s, Candidate(items, c));
      } else {
        assert s == [];
        assert s + [Candidate(items, c)] == [Candidate(items, c)];
      }
    }
  }

  /** Sums over the same categories agree when each category's best candidate agrees. */
  lemma {:induction false} SumBestSame(items: seq<CartItem>, cs: seq<Campaign>, cs': seq<Campaign>, ks: seq<CategoryId>)
    requires forall k :: k in ks ==> k in QualifyingCategories(items, cs) && k in QualifyingCategories(items, cs')
    requires forall k :: k in ks ==> BestCandidate(items, cs, k) == BestCandidate(items, cs', k)
    ensures SumBest(items, cs, ks) == SumBest(items, cs', ks)
  {
    if ks != [] {
      SumBestSame(items, cs, cs', ks[..|ks| - 1]);
    }
  }

  /** Changing one category's best candidate changes the sum by exactly that difference (the categories are distinct). */
  lemma {:induction false} SumBestChangeOne(items: seq<CartItem>, cs: seq<Campaign>, cs': seq<Campaign>, ks: seq<CategoryId>, k: CategoryId)
    requires Distinct(ks)
    requires k in ks
    requires forall k' :: k' in ks ==> k' in QualifyingCategories(items, cs) && k' in QualifyingCategories(items, cs')
    requires forall k' :: k' in ks && k' != k ==> BestCandidate(items, cs, k') == BestCandidate(items, cs', k')
    ensures SumBest(items, cs', ks)
            == SumBest(items, cs, ks) - BestCandidate(items, cs, k) + BestCandidate(items, cs', k)
  {
    var n := |ks| - 1;
    var init := ks[..n];
    DistinctInit(ks, k);
    if ks[n] == k {
      SumBestSame(items, cs, cs', init);
    } else {
      SumBestChangeOne(items, cs, cs', init, k);
    }
  }

  /** In a sequence without repetitions, `k` is either the last element and absent before it, or present before it. */
  lemma DistinctInit(ks: seq<CategoryId>, k: CategoryId)
    requires Distinct(ks)
    requires k in ks
    ensures var init := ks[..|ks| - 1];
            (ks[|ks| - 1] == k ==> k !in init) && (ks[|ks| - 1] != k ==> k in init)
            && Distinct(init)
  {
    var n := |ks| - 1;
    var i :| 0 <= i < |ks| && ks[i] == k;
    if ks[n] != k {
      assert ks[..n][i] == k;
    }
  }

  /**
   * Appending a campaign: one that does not qualify changes nothing; one
   * for a category no campaign has qualified for yet adds its candidate;
   * one for a category already served replaces that category's discount
   * only when strictly larger, so campaigns on one category never stack.
   */
  lemma CampaignDiscountAppend(items: seq<CartItem>, cs: seq<Campaign>, c: Campaign)
    ensures !Qualifies(items, c) ==> CampaignDiscountOf(items, cs + [c]) == CampaignDiscountOf(items, cs)
    ensures Qualifies(items, c) && c.category.id !in QualifyingCategories(items, cs) ==>
              CampaignDiscountOf(items, cs + [c]) == CampaignDiscountOf(items, cs) + Candidate(items, c)
    ensures Qualifies(items, c) && c.category.id in QualifyingCategories(items, cs) ==>
              var prevBest := BestCandidate(items, cs, c.category.id);
              CampaignDiscountOf(items, cs + [c])
              == CampaignDiscountOf(items, cs) + (if Candidate(items, c) > prevBest then Candidate(items, c) - prevBest else 0.0)
  {
    var k := c.category.id;
    var ks := QualifyingCategories(items, cs);
    var ks' := QualifyingCategories(items, cs + [c]);
    QualifyingCategoriesAppend(items, cs, c);
    forall k' | k' in ks && (k' != k || !Qualifies(items, c))
      ensures BestCandidate(items, cs + [c], k') == BestCandidate(items, cs, k')
    {
      BestCandidateAppend(items, cs, c, k');
    }
    if !Qualifies(items, c) {
      SumBestSame(items, cs, cs + [c], ks);
    } else if k !in ks {
      assert ks'[..|ks|] == ks;
      SumBestSame(items, cs, cs + [c], ks);
      BestCandidateAppend(items, cs, c, k);
    } else {
      BestCandidateAppend(items, cs, c, k);
      QualifyingCategoriesDistinct(items, cs);
      SumBestChangeOne(items, cs, cs + [c], ks, k);
    }
  }

  // ---------------------------------------------------------------------
  // Consequences

  /** With no qualifying campaign (in particular with an empty cart) the campaign discount is 0. */
  lemma {:induction false} NoQualifyingCampaign(items: seq<CartItem>, cs: seq<Campaign>)
    requires items == [] || forall c :: c in cs ==> !Qualifies(items, c)
    ensures QualifyingCategories(items, cs) == []
    ensures CampaignDiscountOf(items, cs) == 0.0
    decreases |cs|
  {
    if cs != [] {
      var init, c := cs[..|cs| - 1], cs[|cs| - 1];
      assert c in cs;
      assert forall c' :: c' in init ==> c' in cs;
      NoQualifyingCampaign(items, init);
    }
  }

  /**
   * Campaigns that all target one category never stack: the cart gets the
   * best qualifying one alone, or nothing when none qualifies.
   */
  lemma {:induction false} SingleCategoryNoStacking(items: seq<CartItem>, cs: seq<Campaign>, k: CategoryId)
    requires forall c :: c in cs ==> c.category.id == k
    ensures CampaignDiscountOf(items, cs)
            == if k in QualifyingCategories(items, cs) then BestCandidate(items, cs, k) else 0.0
  {
    if cs != [] {
      var init, c := cs[..|cs| - 1], cs[|cs| - 1];
      assert cs == init + [c];
      SingleCategoryNoStacking(items, init, k);
      CampaignDiscountAppend(items, init, c);
      QualifyingCategoriesAppend(items, init, c);
      if k in QualifyingCategories(items, cs) {
        BestCandidateAppend(items, init, c, k);
      }
    }
  }

  /** When every line has a positive quantity, a campaign asking for at most one unit qualifies exactly when some line matches. */
  lemma QualifiesLowMinimum(items: seq<CartItem>, c: Campaign)
    requires forall i :: 0 <= i < |items| ==> items[i].quantity > 0
    requires c.quantity <= 1
    ensures Qualifies(items, c) <==> exists it :: it in items && it.product.category.id == c.category.id
  {
    var m := Matching(items, c.category.id);
    MatchingQuantityPositive(items, c.category.id);
    if exists it :: it in items && it.product.category.id == c.category.id {
      var it :| it in items && it.product.category.id == c.category.id;
      assert it in m;
    }
  }

  /**
   * A percentage campaign of at most 100% takes off between nothing and
   * what its category's lines cost, when no line is negative.
   */
  lemma CandidateBounded(items: seq<CartItem>, c: Campaign)
    requires NonNegativeLines(items)
    requires c.discountType == Rate && 0.0 <= c.discount <= 100.0
    ensures 0.0 <= Candidate(items, c) <= ItemsAmount(Matching(items, c.category.id))
  {
    var m := Matching(items, c.category.id);
    assert NonNegativeLines(m);
    ItemsAmountNonNegative(m);
    PercentageBounded(ItemsAmount(m), c.discount, Candidate(items, c));
  }

  /** Adding a positive quantity of any product never makes a qualifying campaign stop qualifying. */
  lemma QualifiesAfterAddItem(items: seq<CartItem>, c: Campaign, product: Product, quantity: int)
    requires Qualifies(items, c)
    ensures Qualifies(AddedItem(items, product, quantity), c)
  {
    var k := c.category.id;
    var found := FindProduct(items, product.id);
    var r := AddedItem(items, product, quantity);
    if quantity > 0 {
      if found.Some? {
        var j := found.value;
        var x := items[j].(quantity := items[j].quantity + quantity);
        assert r == items[j := x];
        MatchingRaise(items, j, x, quantity, k);
      } else {
        var line := CartItem(product, quantity);
        assert r == items + [line];
        MatchingAppendLine(items, line, k);
      }
    }
  }

  lemma MatchingAppendLine(items: seq<CartItem>, line: CartItem, k: CategoryId)
    requires line.quantity > 0
    ensures |Matching(items + [line], k)| >= |Matching(items, k)|
    ensures TotalQuantity(Matching(items + [line], k)) >= TotalQuantity(Matching(items, k))
  {
    MatchingAppend(items, [line], k);
    assert [line][1..] == [];
    var m := Matching([line], k);
    assert m == if line.product.category.id == k then [line] else [];
    TotalQuantityAppend(Matching(items, k), m);
    assert TotalQuantity(m) >= 0 by {
      if m != [] {
        assert m[1..] == [];
      }
    }
  }
}
