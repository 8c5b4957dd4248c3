// Gas coin selection: sorting and the greedy walk, when it fails, and why no smaller payment
// exists; the budget arithmetic and the filtering around it.

module Gas {
  import opened Base
  import opened Ptb

  /** A gas coin: its object id as text, its balance, and the reference that pays with it. */
  datatype Coin = Coin(id: string, balance: nat, version: nat, digest: Digest)

  const MAX_GAS_PAYMENT_OBJECTS: nat := 256

  const GAS_SAFE_OVERHEAD: nat := 1000

  function Max(a: int, b: int): int {
    if a > b then a else b
  }

  /** `compute_gas_budget`; a negative storage cost (a rebate) never lowers the budget. */
  function ComputeGasBudget(computation: int, storage: int, price: int): (budget: int)
    ensures budget - (computation + 1000 * price) == (if storage > 0 then storage else 0)
  {
    var overhead := GAS_SAFE_OVERHEAD * price;
    Max(computation + overhead, computation + overhead + storage)
  }

  // ---- sorting -------------------------------------------------------------

  predicate Descending(cs: seq<Coin>) {
    forall i, j :: 0 <= i < j < |cs| ==> cs[i].balance >= cs[j].balance
  }

  /** Where a stable descending sort puts a coin that came before all of `cs`. */
  function Insert(c: Coin, cs: seq<Coin>): seq<Coin> {
    if cs == [] || c.balance >= cs[0].balance then [c] + cs else [cs[0]] + Insert(c, cs[1..])
  }

  /** `sorted(coins, key=balance, reverse=True)`. */
  function SortDescending(cs: seq<Coin>): seq<Coin> {
    if cs == [] then [] else Insert(cs[0], SortDescending(cs[1..]))
  }

  lemma {:induction false} InsertKeeps(c: Coin, cs: seq<Coin>)
    ensures multiset(Insert(c, cs)) == multiset(cs) + multiset{c}
  {
    if cs != [] && c.balance < cs[0].balance {
      InsertKeeps(c, cs[1..]);
      assert cs == [cs[0]] + cs[1..];
    }
  }

  lemma {:induction false} InsertLaws(c: Coin, cs: seq<Coin>)
    requires Descending(cs)
    ensures Descending(Insert(c, cs)) && multiset(Insert(c, cs)) == multiset(cs) + multiset{c}
  {
    InsertKeeps(c, cs);
    if cs != [] && c.balance < cs[0].balance {
      InsertLaws(c, cs[1..]);
      var r := Insert(c, cs[1..]);
      forall k | 0 <= k < |r| ensures cs[0].balance >= r[k].balance {
        assert r[k] in multiset(r);
        if r[k] != c { assert r[k] in cs[1..]; }
      }
    }
  }

  /** The sort orders by falling balance and keeps the coins. */
  lemma {:induction false} SortLaws(cs: seq<Coin>)
    ensures Descending(SortDescending(cs)) && multiset(SortDescending(cs)) == multiset(cs)
  {
    if cs != [] {
      SortLaws(cs[1..]);
      InsertLaws(cs[0], SortDescending(cs[1..]));
      assert cs == [cs[0]] + cs[1..];
    }
  }

  // ---- totals --------------------------------------------------------------

  function Total(cs: seq<Coin>): nat {
    if cs == [] then 0 else Total(cs[..|cs| - 1]) + cs[|cs| - 1].balance
  }

  lemma TotalSnoc(cs: seq<Coin>, c: Coin)
    ensures Total(cs + [c]) == Total(cs) + c.balance
  {
    assert (cs + [c])[..|cs|] == cs;
  }

  lemma {:induction false} TotalConcat(xs: seq<Coin>, ys: seq<Coin>)
    ensures Total(xs + ys) == Total(xs) + Total(ys)
  {
    if ys == [] { assert xs + ys == xs; }
    else {
      var r, l := ys[..|ys| - 1], ys[|ys| - 1];
      TotalConcat(xs, r);
      assert xs + ys == (xs + r) + [l] && ys == r + [l];
      TotalSnoc(xs + r, l);
    }
  }

  lemma TotalMiddle(a: seq<Coin>, c: Coin, b: seq<Coin>)
    ensures Total(a + [c] + b) == Total(a + b) + c.balance
  {
    TotalConcat(a + [c], b);
    TotalSnoc(a, c);
    TotalConcat(a, b);
  }

  lemma TotalWithout(cs: seq<Coin>, i: nat, a: seq<Coin>, b: seq<Coin>)
    requires i < |cs| && a == cs[..i] && b == cs[i + 1..]
    ensures Total(cs) == Total(a + b) + cs[i].balance
  {
    assert a + [cs[i]] + b == cs;
    TotalMiddle(a, cs[i], b);
  }

  lemma TotalPrefix(cs: seq<Coin>, i: nat)
    requires i < |cs|
    ensures cs[..i + 1] == cs[..i] + [cs[i]] && Total(cs[..i + 1]) == Total(cs[..i]) + cs[i].balance
  {
    assert cs[..i + 1] == cs[..i] + [cs[i]];
    TotalSnoc(cs[..i], cs[i]);
  }

  /** The greedy walk over the sorted coins: how many are taken until the budget is covered. */
  function TakeUntil(cs: seq<Coin>, budget: int, from: nat): (n: nat)
    requires from <= |cs|
    ensures from <= n <= |cs|
    decreases |cs| - from
  {
    if from == |cs| || Total(cs[..from]) >= budget then from else TakeUntil(cs, budget, from + 1)
  }

  lemma {:induction false} TakeUntilLaws(cs: seq<Coin>, budget: int, from: nat)
    requires from <= |cs|
    ensures var n := TakeUntil(cs, budget, from);
      && (Total(cs[..n]) < budget ==> n == |cs|)
      && forall m :: from <= m < n ==> Total(cs[..m]) < budget
    decreases |cs| - from
  {
    if from < |cs| && Total(cs[..from]) < budget { TakeUntilLaws(cs, budget, from + 1); }
  }

  /** The candidates: sorted, and cut at the protocol limit. */
  function Candidates(coins: seq<Coin>): seq<Coin> {
    var sorted := SortDescending(coins);
    if |sorted| <= MAX_GAS_PAYMENT_OBJECTS then sorted else sorted[..MAX_GAS_PAYMENT_OBJECTS]
  }

  /** `coins_for_budget`. */
  function CoinsForBudget(coins: seq<Coin>, budget: int): Base.Result<seq<Coin>> {
    var cs := Candidates(coins);
    if cs != [] && cs[0].balance >= budget then Ok([cs[0]])
    else
      var n := TakeUntil(cs, budget, 0);
      if Total(cs[..n]) < budget then Err("total gas available is too small") else Ok(cs[..n])
  }

  /** The loops of `coins_for_budget`. */
  method SelectCoins(coins: seq<Coin>, budget: int) returns (r: Base.Result<seq<Coin>>)
    ensures r == CoinsForBudget(coins, budget)
  {
    var cs := Candidates(coins);
    for i := 0 to |cs|
      invariant forall k :: 0 <= k < i ==> cs[k].balance < budget
    {
      CandidatesDescend(coins, i);
      if cs[i].balance >= budget {
        return Ok([cs[i]]);
      }
    }
    var accum, selected := Accumulate(cs, budget);
    if accum < budget { return Err("total gas available is too small"); }
    return Ok(selected);
  }

  /** The greedy loop. */
  method Accumulate(cs: seq<Coin>, budget: int) returns (accum: nat, selected: seq<Coin>)
    ensures selected == cs[..TakeUntil(cs, budget, 0)] && accum == Total(selected)
  {
    accum, selected := 0, [];
    var i := 0;
    while i < |cs| && accum < budget
      invariant i <= |cs| && selected == cs[..i] && accum == Total(selected)
      invariant TakeUntil(cs, budget, 0) == TakeUntil(cs, budget, i)
    {
      TotalPrefix(cs, i);
      selected, accum := selected + [cs[i]], accum + cs[i].balance;
      i := i + 1;
    }
  }

  // ---- the exchange argument -----------------------------------------------

  /** A set of the given coins, listed without repetition. */
  ghost predicate SubsetOf(sub: seq<Coin>, coins: seq<Coin>) {
    NoDup(sub) && forall c :: c in sub ==> c in coins
  }

  lemma SubsetWithout(sub: seq<Coin>, i: nat, s: seq<Coin>)
    requires SubsetOf(sub, s) && i < |sub| && s != []
    requires s[0] in sub ==> sub[i] == s[0]
    ensures SubsetOf(sub[..i] + sub[i + 1..], s[1..])
  {
    var r := sub[..i] + sub[i + 1..];
    forall k | 0 <= k < |r| ensures r[k] in s[1..] {
      var j := if k < i then k else k + 1;
      assert r[k] == sub[j] && sub[j] in s && sub[j] in sub && j != i;
    }
  }

  lemma TotalCons(c: Coin, cs: seq<Coin>)
    ensures Total([c] + cs) == c.balance + Total(cs)
  {
    TotalMiddle([], c, cs);
    assert [] + [c] + cs == [c] + cs && [] + cs == cs;
  }

  /** No set of coins totals more than as many of the largest coins. */
  lemma {:induction false} LargestAreLargest(s: seq<Coin>, sub: seq<Coin>)
    requires Descending(s) && SubsetOf(sub, s)
    ensures |sub| <= |s| && Total(sub) <= Total(s[..|sub|])
    decreases |sub|, 1
  {
    if sub != [] {
      assert sub[0] in s;
      var i := 0;
      if s[0] in sub { i :| 0 <= i < |sub| && sub[i] == s[0]; }
      Exchange(s, sub, i, sub[..i], sub[i + 1..], s[1..]);
    }
  }

  lemma {:induction false} Exchange(s: seq<Coin>, sub: seq<Coin>, i: nat, a: seq<Coin>, b: seq<Coin>, rest: seq<Coin>)
    requires Descending(s) && SubsetOf(sub, s) && i < |sub| && s != [] && rest == s[1..]
    requires a == sub[..i] && b == sub[i + 1..] && (s[0] in sub ==> sub[i] == s[0])
    ensures |sub| <= |s| && Total(sub) <= Total(s[..|sub|])
    decreases |sub|, 0
  {
    SubsetWithout(sub, i, s);
    LargestAreLargest(rest, a + b);
    TotalWithout(sub, i, a, b);
    assert sub[i] in s;
    FirstIsLargest(s, rest, |sub| - 1, sub[i].balance, Total(a + b));
  }

  lemma FirstIsLargest(s: seq<Coin>, rest: seq<Coin>, n: nat, balance: nat, others: nat)
    requires s != [] && rest == s[1..] && n <= |rest|
    requires balance <= s[0].balance && others <= Total(rest[..n])
    ensures balance + others <= Total(s[..n + 1])
  {
    assert s[..n + 1] == [s[0]] + rest[..n];
    TotalCons(s[0], rest[..n]);
  }

  lemma SortKeepsCoins(coins: seq<Coin>)
    requires NoDup(coins)
    ensures SubsetOf(SortDescending(coins), coins) && SubsetOf(coins, SortDescending(coins))
  {
    SortLaws(coins);
    var s := SortDescending(coins);
    forall c ensures c in s <==> c in coins { assert c in multiset(s) <==> c in multiset(coins); }
    SortNoDup(coins);
  }

  lemma PrefixLaws(s: seq<Coin>, n: nat, coins: seq<Coin>)
    requires n <= |s| && Descending(s) && SubsetOf(s, coins)
    ensures Descending(s[..n]) && SubsetOf(s[..n], coins)
  {
    forall c | c in s[..n] ensures c in coins { assert c in s; }
  }

  lemma CandidatesLaws(coins: seq<Coin>)
    requires NoDup(coins)
    ensures Descending(Candidates(coins)) && SubsetOf(Candidates(coins), coins)
    ensures |Candidates(coins)| <= MAX_GAS_PAYMENT_OBJECTS
  {
    SortLaws(coins);
    SortKeepsCoins(coins);
    var s := SortDescending(coins);
    if |s| > MAX_GAS_PAYMENT_OBJECTS { PrefixLaws(s, MAX_GAS_PAYMENT_OBJECTS, coins); }
  }

  lemma {:induction false} CandidatesDescend(coins: seq<Coin>, i: nat)
    requires i < |Candidates(coins)|
    ensures Candidates(coins)[0].balance >= Candidates(coins)[i].balance
  {
    SortLaws(coins);
    var s := SortDescending(coins);
    assert Candidates(coins)[0] == s[0] && Candidates(coins)[i] == s[i];
  }

  lemma SortNoDup(coins: seq<Coin>)
    requires NoDup(coins)
    ensures NoDup(SortDescending(coins))
  {
    SortLaws(coins);
    var s := SortDescending(coins);
    forall i, j | 0 <= i < j < |s| ensures s[i] != s[j] {
      if s[i] == s[j] {
        TwiceInMultiset(s, i, j);
        OnceInMultiset(coins, s[i]);
      }
    }
  }

  lemma TwiceInMultiset(s: seq<Coin>, i: nat, j: nat)
    requires i < j < |s| && s[i] == s[j]
    ensures multiset(s)[s[i]] >= 2
  {
    assert s == s[..i + 1] + s[i + 1..];
    assert s[i] in s[..i + 1] by { assert s[..i + 1][i] == s[i]; }
    assert s[j] in s[i + 1..] by { assert s[i + 1..][j - i - 1] == s[j]; }
    assert multiset(s) == multiset(s[..i + 1]) + multiset(s[i + 1..]);
  }

  lemma {:induction false} OnceInMultiset(s: seq<Coin>, c: Coin)
    requires NoDup(s)
    ensures multiset(s)[c] <= 1
  {
    if s != [] {
      OnceInMultiset(s[1..], c);
      assert s == [s[0]] + s[1..];
      if c == s[0] { assert c !in s[1..]; }
    }
  }

  /** A set of at most 256 of the coins that covers the budget. */
  ghost predicate Payment(sub: seq<Coin>, coins: seq<Coin>, budget: int) {
    SubsetOf(sub, coins) && |sub| <= 256 && Total(sub) >= budget
  }

  ghost predicate Coverable(coins: seq<Coin>, budget: int) {
    exists sub :: Payment(sub, coins, budget)
  }

  lemma CandidatesAreBest(coins: seq<Coin>, sub: seq<Coin>)
    requires NoDup(coins) && SubsetOf(sub, coins) && |sub| <= MAX_GAS_PAYMENT_OBJECTS
    ensures |sub| <= |Candidates(coins)| && Total(sub) <= Total(Candidates(coins)[..|sub|])
  {
    SortLaws(coins);
    SortKeepsCoins(coins);
    var s := SortDescending(coins);
    LargestAreLargest(s, sub);
    assert Candidates(coins)[..|sub|] == s[..|sub|];
  }

  lemma {:induction false} TotalMonotone(cs: seq<Coin>, m: nat, n: nat)
    requires m <= n <= |cs|
    ensures Total(cs[..m]) <= Total(cs[..n])
    decreases n - m
  {
    if m < n {
      TotalMonotone(cs, m, n - 1);
      TotalPrefix(cs, n - 1);
    }
  }

  /** Selection fails exactly when no payment of at most 256 coins exists; otherwise it returns one. */
  lemma SelectionComplete(coins: seq<Coin>, budget: int)
    requires NoDup(coins)
    ensures CoinsForBudget(coins, budget).Ok? <==> Coverable(coins, budget)
    ensures CoinsForBudget(coins, budget).Ok? ==> Payment(CoinsForBudget(coins, budget).value, coins, budget)
  {
    var r := CoinsForBudget(coins, budget);
    if r.Ok? {
      SelectionPays(coins, budget);
    } else if Coverable(coins, budget) {
      var cs, sub :| cs == Candidates(coins) && Payment(sub, coins, budget);
      TakeUntilLaws(cs, budget, 0);
      CandidatesAreBest(coins, sub);
      TotalMonotone(cs, |sub|, |cs|);
    }
  }

  lemma SelectionPays(coins: seq<Coin>, budget: int)
    requires NoDup(coins) && CoinsForBudget(coins, budget).Ok?
    ensures Payment(CoinsForBudget(coins, budget).value, coins, budget)
  {
    CandidatesLaws(coins);
    var cs := Candidates(coins);
    if cs != [] && cs[0].balance >= budget {
      assert cs[..1] == [cs[0]] && cs[..0] == [];
      PrefixLaws(cs, 1, coins);
    } else {
      PrefixLaws(cs, TakeUntil(cs, budget, 0), coins);
    }
  }

  /** What is selected is in order of falling balance, and no other coin is worth more than any of it. */
  lemma SelectsLargest(coins: seq<Coin>, budget: int, v: seq<Coin>)
    requires NoDup(coins) && CoinsForBudget(coins, budget) == Ok(v)
    ensures Descending(v) && forall c, d :: c in v && d in coins && d !in v ==> d.balance <= c.balance
  {
    SortLaws(coins);
    SortKeepsCoins(coins);
    var s := SortDescending(coins);
    assert v == s[..|v|] by { SelectedPrefix(coins, budget, v); }
    forall c, d | c in v && d in coins && d !in v ensures d.balance <= c.balance {
      var i :| 0 <= i < |v| && v[i] == c;
      assert d in s;
      var j :| 0 <= j < |s| && s[j] == d;
      assert j >= |v|;
    }
  }

  lemma SelectedPrefix(coins: seq<Coin>, budget: int, v: seq<Coin>)
    requires NoDup(coins) && CoinsForBudget(coins, budget) == Ok(v)
    ensures |v| <= |SortDescending(coins)| && v == SortDescending(coins)[..|v|]
  {
    var s, cs := SortDescending(coins), Candidates(coins);
    assert cs == s[..|cs|];
  }

  /** No smaller set of the coins covers the budget, exactly when a coin is needed at all: for a
      budget of zero or less, and some coin to choose, one coin is taken where none would do. */
  lemma SelectionMinimal(coins: seq<Coin>, budget: int)
    requires NoDup(coins) && CoinsForBudget(coins, budget).Ok?
    ensures (forall sub :: SubsetOf(sub, coins) && Total(sub) >= budget ==>
               |CoinsForBudget(coins, budget).value| <= |sub|)
        <==> budget > 0 || coins == []
  {
    CandidatesLaws(coins);
    var cs, v := Candidates(coins), CoinsForBudget(coins, budget).value;
    TakeUntilLaws(cs, budget, 0);
    SortLaws(coins);
    assert |coins| == |SortDescending(coins)| by { assert |multiset(coins)| == |multiset(SortDescending(coins))|; }
    if budget > 0 || coins == [] {
      forall sub | SubsetOf(sub, coins) && Total(sub) >= budget ensures |v| <= |sub| {
        if |sub| < |v| { CandidatesAreBest(coins, sub); }
      }
    } else {
      var none: seq<Coin> := [];
      assert SubsetOf(none, coins) && Total(none) >= budget && |v| == 1;
    }
  }

  lemma SingleCoin(c: Coin, budget: int)
    requires c.balance >= budget
    ensures CoinsForBudget([c], budget) == Ok([c])
  {
    assert [c][1..] == [] && SortDescending([]) == [];
    assert Candidates([c]) == [c];
  }

  /** For a budget of zero one coin is taken, though no coin would do. */
  lemma OneCoinForNothing(c: Coin)
    ensures CoinsForBudget([c], 0) == Ok([c])
    ensures SubsetOf([], [c]) && Total([]) >= 0
  {
    SingleCoin(c, 0);
  }

  // ---- the gas data of a transaction ---------------------------------------

  /** The coins the caller named: none, some by id, or the coins themselves. */
  datatype UseCoins = AnyCoins | ById(ids: seq<string>) | These(coins: seq<Coin>)

  function Keep(coins: seq<Coin>, p: Coin -> bool): (r: seq<Coin>)
    ensures forall c :: c in r <==> c in coins && p(c)
    ensures NoDup(coins) ==> NoDup(r)
  {
    if coins == [] then []
    else
      var r := Keep(coins[..|coins| - 1], p);
      var c := coins[|coins| - 1];
      if p(c) then r + [c] else r
  }

  datatype GasData = GasData(payment: seq<Coin>, price: nat, budget: int)

  /** The coins before the conflict filter: what was passed, or what the payer's account holds. */
  function Offered(use: UseCoins, fetched: Base.Result<seq<Coin>>): Base.Result<seq<Coin>> {
    match use
    case These(cs) => Ok(cs)
    case AnyCoins => fetched
    case ById(ids) =>
      if ids == [] then Ok([])
      else
        match fetched
        case Ok(all) => Ok(Keep(all, (c: Coin) => c.id in ids))
        case Err(e) => Err(e)
  }

  function NotInUse(coins: seq<Coin>, inUse: set<string>): (r: seq<Coin>)
    ensures forall c :: c in r <==> c in coins && c.id !in inUse
    ensures NoDup(coins) ==> NoDup(r)
  {
    Keep(coins, Unused(inUse))
  }

  function Unused(inUse: set<string>): Coin -> bool {
    (c: Coin) => c.id !in inUse
  }

  lemma OneKept(c: Coin, inUse: set<string>)
    requires c.id !in inUse
    ensures NotInUse([c], inUse) == [c]
  {
    assert [c][..0] == [] && Keep([], Unused(inUse)) == [];
    assert [] + [c] == [c];
  }

  /** The conflict filter and the selection, once the coins and the budget are known. */
  function PayFrom(offered: seq<Coin>, total: int, inUse: set<string>, price: nat, draw: nat): Base.Result<GasData> {
    var free := NotInUse(offered, inUse);
    if free == [] then Err("no coin objects found to fund transaction")
    else Charge(CoinsForBudget(free, total + draw), price, total)
  }

  function Charge(chosen: Base.Result<seq<Coin>>, price: nat, total: int): Base.Result<GasData> {
    match chosen
    case Ok(payment) => Ok(GasData(payment, price, total))
    case Err(e) => Err(e)
  }

  /** What the simulation of the transaction charges. */
  datatype Costs = Costs(computation: int, storage: int)

  /** The budget the caller gave, or else the one that the simulated costs call for. */
  function BudgetFor(budget: Option<int>, price: nat, simulated: Base.Result<Costs>): Base.Result<int> {
    match budget
    case Some(total) => Ok(total)
    case None =>
      match simulated
      case Ok(costs) => Ok(ComputeGasBudget(costs.computation, costs.storage, price))
      case Err(e) => Err(e)
  }

  /** `async_get_gas_data`; the fetched coins and the simulated costs are what the client answers. */
  function GetGasData(budget: Option<int>, use: UseCoins, inUse: set<string>, price: nat, draw: nat,
                      fetched: Base.Result<seq<Coin>>, simulated: Base.Result<Costs>): Base.Result<GasData> {
    var offered :- Offered(use, fetched);
    var total :- BudgetFor(budget, price, simulated);
    PayFrom(offered, total, inUse, price, draw)
  }

  lemma PayFromCharges(offered: seq<Coin>, total: int, inUse: set<string>, price: nat, draw: nat, free: seq<Coin>,
                       chosen: Base.Result<seq<Coin>>, r: Base.Result<GasData>)
    requires free == NotInUse(offered, inUse) && chosen == CoinsForBudget(free, total + draw)
    requires r == PayFrom(offered, total, inUse, price, draw)
    ensures r.Ok? <==> free != [] && chosen.Ok?
    ensures r.Ok? ==> r.value == GasData(chosen.value, price, total)
  {
  }

  /** The payment avoids the objects in use and covers the budget and what commands draw from it;
      there is none exactly when no 256 of the remaining coins cover them, or none remain. */
  lemma PaymentCovers(offered: seq<Coin>, total: int, inUse: set<string>, price: nat, draw: nat, free: seq<Coin>,
                      amount: int,
                      r: Base.Result<GasData>)
    requires NoDup(offered) && free == NotInUse(offered, inUse) && amount == total + draw
    requires r == PayFrom(offered, total, inUse, price, draw)
    ensures r.Ok? <==> free != [] && Coverable(free, amount)
    ensures r.Ok? ==> r.value.budget == total && r.value.price == price && Payment(r.value.payment, free, amount)
  {
    var chosen := CoinsForBudget(free, amount);
    PayFromCharges(offered, total, inUse, price, draw, free, chosen, r);
    assert (chosen.Ok? <==> Coverable(free, amount)) && (chosen.Ok? ==> Payment(chosen.value, free, amount)) by {
      SelectionComplete(free, amount);
    }
  }

  /** The coins the caller agreed to spend: those passed, those of the account with the ids passed, or
      all of the account. */
  predicate MaySpend(use: UseCoins, fetched: Base.Result<seq<Coin>>, c: Coin) {
    match use
    case These(cs) => c in cs
    case ById(ids) => fetched.Ok? && c in fetched.value && c.id in ids
    case AnyCoins => fetched.Ok? && c in fetched.value
  }

  lemma OfferedMaySpend(use: UseCoins, fetched: Base.Result<seq<Coin>>)
    requires Offered(use, fetched).Ok?
    requires (use.These? ==> NoDup(use.coins)) && (fetched.Ok? ==> NoDup(fetched.value))
    ensures NoDup(Offered(use, fetched).value)
    ensures forall c :: c in Offered(use, fetched).value <==> MaySpend(use, fetched, c)
  {
  }

  /** The budget is the one given, or else the least that covers the simulated computation with the
      overhead, both with and without the storage cost. */
  predicate IsBudget(budget: Option<int>, price: nat, simulated: Base.Result<Costs>, total: int) {
    match budget
    case Some(given) => total == given
    case None =>
      && simulated.Ok?
      && var work := simulated.value.computation + 1000 * price;
         var both := work + simulated.value.storage;
         total >= work && total >= both && (total == work || total == both)
  }

  /** Gas data is found exactly when coins are offered, a budget is known, and at most 256 of the
      offered coins that are not in use, at least one of them remaining, cover the budget and what the
      commands draw. The payment is such a set of coins that the caller agreed to spend. */
  lemma GasDataCovers(budget: Option<int>, use: UseCoins, inUse: set<string>, price: nat, draw: nat,
                      fetched: Base.Result<seq<Coin>>, simulated: Base.Result<Costs>,
                      free: set<Coin>, amount: int, r: Base.Result<GasData>)
    requires (use.These? ==> NoDup(use.coins)) && (fetched.Ok? ==> NoDup(fetched.value))
    requires forall c :: c in free <==> Offered(use, fetched).Ok? && MaySpend(use, fetched, c) && c.id !in inUse
    requires budget.Some? || simulated.Ok? ==> IsBudget(budget, price, simulated, amount - draw)
    requires r == GetGasData(budget, use, inUse, price, draw, fetched, simulated)
    ensures r.Ok? <==>
      Offered(use, fetched).Ok? && (budget.Some? || simulated.Ok?) && free != {} && Affordable(free, amount)
    ensures r.Ok? ==> r.value.price == price && r.value.budget == amount - draw
    ensures r.Ok? ==> PaysFrom(r.value.payment, free, amount)
  {
    var offered, total := Offered(use, fetched), BudgetFor(budget, price, simulated);
    if offered.Ok? && total.Ok? {
      OfferedMaySpend(use, fetched);
      FilteredCovers(offered.value, total.value, inUse, price, draw, free, amount, r);
    }
  }

  lemma FilteredCovers(offered: seq<Coin>, total: int, inUse: set<string>, price: nat, draw: nat, free: set<Coin>,
                       amount: int,
                       r: Base.Result<GasData>)
    requires NoDup(offered) && (forall c :: c in free <==> c in offered && c.id !in inUse) && amount == total + draw
    requires r == PayFrom(offered, total, inUse, price, draw)
    ensures r.Ok? <==> free != {} && Affordable(free, amount)
    ensures r.Ok? ==> r.value.budget == total && r.value.price == price && PaysFrom(r.value.payment, free, amount)
  {
    var rest := NotInUse(offered, inUse);
    PaymentCovers(offered, total, inUse, price, draw, rest, amount, r);
    AsSet(rest, free, total, amount, price, r);
  }

  lemma AsSet(rest: seq<Coin>, free: set<Coin>, total: int, amount: int, price: nat, r: Base.Result<GasData>)
    requires forall c :: c in rest <==> c in free
    requires r.Ok? <==> rest != [] && Coverable(rest, amount)
    requires r.Ok? ==> Payment(r.value.payment, rest, amount)
    ensures r.Ok? <==> free != {} && Affordable(free, amount)
    ensures r.Ok? ==> PaysFrom(r.value.payment, free, amount)
  {
    SameCoinsEmpty(rest, free);
    CoverableIsAffordable(rest, free, amount);
    if r.Ok? { PaymentIsPaysFrom(r.value.payment, rest, free, amount); }
  }

  lemma SameCoinsEmpty(coins: seq<Coin>, free: set<Coin>)
    requires forall c :: c in coins <==> c in free
    ensures coins == [] <==> free == {}
  {
    if coins != [] { assert coins[0] in free; }
    if free != {} {
      var c :| c in free;
      assert c in coins;
    }
  }

  /** At most 256 different coins of a set that are worth the amount. */
  ghost predicate PaysFrom(sub: seq<Coin>, coins: set<Coin>, amount: int) {
    && NoDup(sub) && |sub| <= 256 && Total(sub) >= amount
    && forall c :: c in sub ==> c in coins
  }

  ghost predicate Affordable(coins: set<Coin>, amount: int) {
    exists sub :: PaysFrom(sub, coins, amount)
  }

  lemma PaymentIsPaysFrom(sub: seq<Coin>, coins: seq<Coin>, free: set<Coin>, amount: int)
    requires forall c :: c in coins <==> c in free
    ensures Payment(sub, coins, amount) <==> PaysFrom(sub, free, amount)
  {
  }

  lemma CoverableIsAffordable(coins: seq<Coin>, free: set<Coin>, amount: int)
    requires forall c :: c in coins <==> c in free
    ensures Coverable(coins, amount) <==> Affordable(free, amount)
  {
    if Coverable(coins, amount) {
      var sub :| Payment(sub, coins, amount);
      PaymentIsPaysFrom(sub, coins, free, amount);
    }
    if Affordable(free, amount) {
      var sub :| PaysFrom(sub, free, amount);
      PaymentIsPaysFrom(sub, coins, free, amount);
    }
  }
}
