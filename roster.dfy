/**
 * A lab's student-funding roster: three parallel, append-only lists of
 * names, per-year funding amounts and years of support, an aggregate cost,
 * and a funding status driven by the name of a funding source.
 */
module AOLRoster {

  /** The funding status of a roster. `NotFunded` is the state the "None"
      branch of the funding operation names; the operation as written only
      compares against it, so no roster ever reaches it. */
  datatype Status = Unfunded | Funded | NotFunded

  /** What the funding operation reports to its caller instead of printing. */
  datatype Notice =
    | SourceFunding(source: string, accountNumber: int)
    | NoFundingAvailable

  /** The one error the roster raises. */
  datatype FundingError = UnknownFundingSource(source: string)

  datatype Result<+T, +E> = Ok(value: T) | Err(error: E)

  function Min(a: nat, b: nat): nat { if a <= b then a else b }

  // ---------------------------------------------------------------------
  // The aggregate: a sum of products over two zipped lists.
  // ---------------------------------------------------------------------

  /** Pairs up the elements of `a` and `b` position by position, stopping at
      the end of the shorter one. */
  function Zip(a: seq<int>, b: seq<int>): (r: seq<(int, int)>)
    ensures |r| == Min(|a|, |b|)
    ensures forall i :: 0 <= i < |r| ==> r[i] == (a[i], b[i])
  {
    if a == [] || b == [] then [] else [(a[0], b[0])] + Zip(a[1..], b[1..])
  }

  /** The sum of `x * y` over the pairs, left to right; 0 for no pairs. */
  function SumOfProducts(pairs: seq<(int, int)>): (r: int)
    ensures pairs == [] ==> r == 0
    ensures (forall i :: 0 <= i < |pairs| ==> pairs[i].0 >= 0 && pairs[i].1 >= 0) ==> r >= 0
  {
    if pairs == [] then 0
    else
      assert forall i :: 0 <= i < |pairs[1..]| ==> pairs[1..][i] == pairs[i + 1];
      pairs[0].0 * pairs[0].1 + SumOfProducts(pairs[1..])
  }

  /** Reference definition of the total cost: the sum of
      `funding[i] * years[i]` over the first `n` positions. */
  function IndexedCost(funding: seq<int>, years: seq<int>, n: nat): int
    requires n <= |funding| && n <= |years|
  {
    if n == 0 then 0
    else IndexedCost(funding, years, n - 1) + funding[n - 1] * years[n - 1]
  }

  lemma {:induction false} SumOfProductsAppend(pairs: seq<(int, int)>, p: (int, int))
    ensures SumOfProducts(pairs + [p]) == SumOfProducts(pairs) + p.0 * p.1
  {
    if pairs != [] {
      assert (pairs + [p])[1..] == pairs[1..] + [p];
      SumOfProductsAppend(pairs[1..], p);
    }
  }

  /** The zipped sum over the first `n` positions is the indexed sum. */
  lemma {:induction false} ZipPrefixCost(funding: seq<int>, years: seq<int>, n: nat)
    requires n <= |funding| && n <= |years|
    ensures SumOfProducts(Zip(funding[..n], years[..n])) == IndexedCost(funding, years, n)
  {
    if n > 0 {
      ZipPrefixCost(funding, years, n - 1);
      var shorter := Zip(funding[..n - 1], years[..n - 1]);
      assert Zip(funding[..n], years[..n]) == shorter + [(funding[n - 1], years[n - 1])];
      SumOfProductsAppend(shorter, (funding[n - 1], years[n - 1]));
    }
  }

  /** Summing over the zipped lists is the sum of `funding[i] * years[i]` over
      every position both lists have. */
  lemma ZipCostIsIndexedCost(funding: seq<int>, years: seq<int>)
    ensures SumOfProducts(Zip(funding, years)) == IndexedCost(funding, years, Min(|funding|, |years|))
  {
    var n := Min(|funding|, |years|);
    ZipPrefixCost(funding, years, n);
    assert Zip(funding, years) == Zip(funding[..n], years[..n]);
  }

  /** The indexed sum over `n` positions ignores what lies beyond them. */
  lemma {:induction false} IndexedCostPrefix(funding: seq<int>, years: seq<int>, n: nat, f: int, y: int)
    requires n <= |funding| && n <= |years|
    ensures IndexedCost(funding + [f], years + [y], n) == IndexedCost(funding, years, n)
  {
    if n > 0 {
      IndexedCostPrefix(funding, years, n - 1, f, y);
    }
  }

  /** Appending one entry to lists of equal length adds exactly that entry's
      cost to the total. */
  lemma IndexedCostAppend(funding: seq<int>, years: seq<int>, f: int, y: int)
    requires |funding| == |years|
    ensures IndexedCost(funding + [f], years + [y], |funding| + 1)
            == IndexedCost(funding, years, |funding|) + f * y
  {
    IndexedCostPrefix(funding, years, |funding|, f, y);
  }

  // ---------------------------------------------------------------------
  // The funding status machine.
  // ---------------------------------------------------------------------

  /** The funding sources the roster recognises. */
  predicate Recognized(fund: string) {
    fund == "NSERC" || fund == "CIHR" || fund == "None"
  }

  /** The transition table of the funding operation: from status `s`, the
      source `fund` gives a new status and a notice, or the error naming
      the source. The "None" source keeps the status it finds. */
  function Step(s: Status, fund: string, accountNumber: int): (r: Result<(Status, Notice), FundingError>)
    ensures (fund == "NSERC" || fund == "CIHR") <==> r == Ok((Funded, SourceFunding(fund, accountNumber)))
    ensures fund == "None" <==> r == Ok((s, NoFundingAvailable))
    ensures r.Err? <==> !Recognized(fund)
    ensures r.Err? ==> r.error == UnknownFundingSource(fund)
    ensures r.Ok? && s != NotFunded ==> r.value.0 != NotFunded
  {
    if fund == "NSERC" then Ok((Funded, SourceFunding(fund, accountNumber)))
    else if fund == "CIHR" then Ok((Funded, SourceFunding(fund, accountNumber)))
    else if fund == "None" then Ok((s, NoFundingAvailable))
    else Err(UnknownFundingSource(fund))
  }

  /** Funding twice from the same accepted grant source gives the same status
      as funding once. */
  lemma StepIdempotent(s: Status, fund: string, n: int, m: int)
    requires fund == "NSERC" || fund == "CIHR"
    ensures Step(s, fund, n).Ok? && Step(Step(s, fund, n).value.0, fund, m).Ok?
    ensures Step(Step(s, fund, n).value.0, fund, m).value.0 == Step(s, fund, n).value.0 == Funded
  {
  }

  // ---------------------------------------------------------------------
  // The roster itself.
  // ---------------------------------------------------------------------

  class TimLab {
    var people: seq<string>
    var fundingPerYear: seq<int>
    var yearsNeeded: seq<int>
    var status: Status
    /** A label for the period; no operation reads it. */
    var year: int

    /** The three lists stay parallel, and the status never becomes
        `NotFunded`. */
    ghost predicate Valid()
      reads this
    {
      |people| == |fundingPerYear| == |yearsNeeded| && status != NotFunded
    }

    constructor (year: int)
      ensures Valid()
      ensures people == [] && fundingPerYear == [] && yearsNeeded == []
      ensures status == Unfunded && this.year == year
    {
      people, fundingPerYear, yearsNeeded := [], [], [];
      status := Unfunded;
      this.year := year;
    }

    /** The sum of `fundingPerYear[i] * yearsNeeded[i]` over the zipped lists. */
    function TotalCost(): (r: int)
      reads this
      ensures r == IndexedCost(fundingPerYear, yearsNeeded, Min(|fundingPerYear|, |yearsNeeded|))
      ensures fundingPerYear == [] || yearsNeeded == [] ==> r == 0
      ensures ((forall i :: 0 <= i < |fundingPerYear| ==> fundingPerYear[i] >= 0) &&
               (forall i :: 0 <= i < |yearsNeeded| ==> yearsNeeded[i] >= 0)) ==> r >= 0
    {
      ZipCostIsIndexedCost(fundingPerYear, yearsNeeded);
      SumOfProducts(Zip(fundingPerYear, yearsNeeded))
    }

    /** Appends one entry at the end of each list; nothing else changes. */
    method AddStudent(name: string, funding: int, years: int)
      requires Valid()
      modifies this
      ensures Valid()
      ensures people == old(people) + [name]
      ensures fundingPerYear == old(fundingPerYear) + [funding]
      ensures yearsNeeded == old(yearsNeeded) + [years]
      ensures status == old(status) && year == old(year)
      ensures TotalCost() == old(TotalCost()) + funding * years
    {
      IndexedCostAppend(fundingPerYear, yearsNeeded, funding, years);
      people := people + [name];
      fundingPerYear := fundingPerYear + [funding];
      yearsNeeded := yearsNeeded + [years];
    }

    /** Applies the funding source `fund` to the status, following `Step`;
        an unknown source leaves the status as it was and is reported. */
    method Funding(fund: string, accountNumber: int) returns (r: Result<Notice, FundingError>)
      requires Valid()
      modifies this
      ensures Valid()
      ensures people == old(people) && fundingPerYear == old(fundingPerYear)
      ensures yearsNeeded == old(yearsNeeded) && year == old(year)
      ensures r.Ok? <==> Step(old(status), fund, accountNumber).Ok?
      ensures r.Ok? ==> (r.value, status) == (Step(old(status), fund, accountNumber).value.1,
                                              Step(old(status), fund, accountNumber).value.0)
      ensures r.Err? ==> r.error == Step(old(status), fund, accountNumber).error && status == old(status)
    {
      if fund == "NSERC" {
        r := Ok(SourceFunding(fund, accountNumber));
        status := Funded;
      } else if fund == "CIHR" {
        r := Ok(SourceFunding(fund, accountNumber));
        status := Funded;
      } else if fund == "None" {
        // The source compares the status with "not funded" here and
        // discards the answer, so the status stays as it is.
        r := Ok(NoFundingAvailable);
      } else {
        r := Err(UnknownFundingSource(fund));
      }
    }
  }

  /** The sample run: three students, their total cost, then NSERC funding. */
  method SampleRun() returns (cost: int, status: Status)
    ensures cost == 120 && status == Funded
  {
    var lab := new TimLab(2024);
    lab.AddStudent("Bing", 30, 1);
    lab.AddStudent("Jesse", 30, 0);
    lab.AddStudent("Jamal", 30, 3);
    cost := lab.TotalCost();
    var _ := lab.Funding("NSERC", 123456);
    status := lab.status;
  }

  /** A fresh roster given the "None" source stays unfunded; given an unknown
      source it reports that source and keeps its status and entries. */
  method UnfundedScenarios() returns (afterNone: Status, unknown: Result<Notice, FundingError>, afterUnknown: Status)
    ensures afterNone == Unfunded
    ensures unknown == Err(UnknownFundingSource("DoesNotExist")) && afterUnknown == Unfunded
  {
    var lab := new TimLab(2024);
    var _ := lab.Funding("None", 1);
    afterNone := lab.status;
    unknown := lab.Funding("DoesNotExist", 1);
    afterUnknown := lab.status;
  }
}
