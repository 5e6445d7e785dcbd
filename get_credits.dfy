/** The "Get Credits" screen: a fixed table of credit packs, a subscription that grants 50 credits
    whatever the plan, and a rewarded ad that grants 5. Purchases and subscriptions then navigate back;
    the ad keeps the screen open. Prices and feature lists are display text and are not modelled. */
module GetCredits {
  import opened Common
  import opened Credits

  datatype CreditPackage = CreditPackage(id: int, amount: int, mostPopular: bool)

  const CreditPackages: seq<CreditPackage> := [
    CreditPackage(1, 20, false),
    CreditPackage(2, 50, true),
    CreditPackage(3, 100, false),
    CreditPackage(4, 200, false)
  ]

  const SubscriptionCredits := 50
  const AdCredits := 5

  /** `packages.find(pkg => pkg.id === id)`: the first package with that id, if any. */
  function FindPackage(packages: seq<CreditPackage>, id: int): (r: Option<CreditPackage>)
    ensures r.None? <==> forall i :: 0 <= i < |packages| ==> packages[i].id != id
    ensures r.Some? ==> exists i :: 0 <= i < |packages| && packages[i] == r.value
                         && forall k :: 0 <= k < i ==> packages[k].id != id
    ensures r.Some? ==> r.value.id == id
    decreases |packages|
  {
    if packages == [] then None
    else if packages[0].id == id then Some(packages[0])
    else FindPackage(packages[1..], id)
  }

  /** The package ids are 1 to 4, distinct, with amounts 20, 50, 100 and 200; only package 2 is flagged most popular. */
  lemma PackageTable()
    ensures |CreditPackages| == 4
    ensures forall i :: 0 <= i < 4 ==> CreditPackages[i].id == i + 1
    ensures forall i, j :: 0 <= i < j < 4 ==> CreditPackages[i].id != CreditPackages[j].id
    ensures [CreditPackages[0].amount, CreditPackages[1].amount, CreditPackages[2].amount, CreditPackages[3].amount]
         == [20, 50, 100, 200]
    ensures forall i :: 0 <= i < 4 ==> (CreditPackages[i].mostPopular <==> CreditPackages[i].id == 2)
  {
  }

  /** Looking up an id finds a package exactly for 1 to 4, and then the one with that id and its amount. */
  lemma LookupKnownIds(id: int)
    ensures FindPackage(CreditPackages, id).Some? <==> 1 <= id <= 4
    ensures 1 <= id <= 4 ==> FindPackage(CreditPackages, id) == Some(CreditPackages[id - 1])
  {
    PackageTable();
    if 1 <= id <= 4 {
      var r := FindPackage(CreditPackages, id);
      var i :| 0 <= i < 4 && CreditPackages[i] == r.value && forall k :: 0 <= k < i ==> CreditPackages[k].id != id;
      assert i == id - 1;
    }
  }

  /** The screen's handlers, acting on the credit ledger; `navigatedBack` records `router.back()`. */
  class GetCreditsScreen {
    const ledger: CreditLedger
    var navigatedBack: bool

    constructor (ledger: CreditLedger)
      ensures this.ledger == ledger && !navigatedBack
    {
      this.ledger := ledger;
      navigatedBack := false;
    }

    /** `handlePurchaseCredits(packageId)`: a known package adds its amount, then the screen closes;
        an unknown id changes nothing. */
    method HandlePurchaseCredits(packageId: int)
      modifies this, ledger
      ensures FindPackage(CreditPackages, packageId).Some? ==>
                ledger.credits == old(ledger.credits) + FindPackage(CreditPackages, packageId).value.amount
                && navigatedBack
      ensures FindPackage(CreditPackages, packageId).None? ==>
                ledger.credits == old(ledger.credits) && navigatedBack == old(navigatedBack)
    {
      var selected := FindPackage(CreditPackages, packageId);
      if selected.Some? {
        ledger.AddCredits(selected.value.amount);
        navigatedBack := true;
      }
    }

    /** `handleSubscribe(planId)`: 50 credits whatever the plan, then the screen closes. */
    method HandleSubscribe(planId: string)
      modifies this, ledger
      ensures ledger.credits == old(ledger.credits) + SubscriptionCredits
      ensures navigatedBack
    {
      ledger.AddCredits(SubscriptionCredits);
      navigatedBack := true;
    }

    /** `handleWatchAd()`: 5 credits, and the screen stays open. */
    method HandleWatchAd()
      modifies ledger
      ensures ledger.credits == old(ledger.credits) + AdCredits
      ensures navigatedBack == old(navigatedBack)
    {
      ledger.AddCredits(AdCredits);
    }
  }
}
