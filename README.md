# TimLab funding roster, in Dafny

This project models `TimLab`, a lab's student-funding roster. A roster keeps
three parallel lists that only grow: student names, per-year funding amounts
and years of support. It computes the total cost of all entries. It also
keeps a funding status that a funding-source name drives: `"NSERC"` and
`"CIHR"` mark the roster funded, `"None"` reports that no funding is
available, and any other name is an error.

The model is one module, `AOLRoster`, in `roster.dfy`:

- `TimLab` is a class with the source's fields: `people`, `fundingPerYear`,
  `yearsNeeded`, `status` and `year`. `AddStudent` and `Funding` are methods
  that update those fields in place. `TotalCost` is a function that reads
  them, so it cannot change any field.
- `Valid()` is the object invariant. The three lists have equal length, and
  the status is never `NotFunded`.
- The aggregate is specified on values. `Zip` pairs two lists up to the
  shorter one, as Python's `zip` does. `SumOfProducts` adds up the products
  from left to right. `IndexedCost` is an independent reference sum over
  positions, and the lemmas prove that the two agree.
- `Step` is the funding transition table as a pure function, and the
  `Funding` method is proved against it.

Design decisions:

- **The `"None"` branch is reproduced as written.** Line 30 of
  `AOLRoster.py` compares the status with `"not funded"` and throws the
  answer away; it was evidently meant to be an assignment. The model keeps
  that behaviour: `Step` and `Funding` leave the status unchanged for
  `"None"`. `NotFunded` exists in `Status` only to name the intended state,
  and `Valid()` proves that no roster ever reaches it.
- **Printed notices become a returned value.** `Funding` returns
  `Ok(SourceFunding(source, accountNumber))` for a grant source and
  `Ok(NoFundingAvailable)` for `"None"`.
- **The exception becomes an error value.** An unknown source returns
  `Err(UnknownFundingSource(source))`.
- **Fields belong to each instance.** The constructor gives every roster its
  own empty lists and the status `Unfunded`. In the Python code the lists are
  class attributes that all instances share.
- **Amounts and years are unbounded integers.** `add_student` checks nothing,
  so negative values are allowed, as in the source.

## Model

| member | source | states |
|---|---|---|
| `AOLRoster.TimLab.constructor` | AOLRoster.py:2-8 | A new roster has three empty lists and the status `Unfunded`, and stores the year label. |
| `AOLRoster.TimLab.AddStudent` | AOLRoster.py:10-13 | Appends the name, funding and years at the end of their lists, leaving earlier entries alone. Each list grows by exactly one and the three stay equal in length. Status and year are unchanged, and the total cost grows by exactly `funding * years`. |
| `AOLRoster.TimLab.TotalCost` | AOLRoster.py:15-17 | The total is the sum of `fundingPerYear[i] * yearsNeeded[i]` over every position both lists have. It is 0 when either list is empty and never negative when all amounts and years are non-negative. Being a function, it changes no field. |
| `AOLRoster.Zip` | AOLRoster.py:16 | The zipped list is as long as the shorter input, and position `i` holds the pair of the `i`-th elements. |
| `AOLRoster.SumOfProducts` | AOLRoster.py:16 | The sum over the zipped pairs is 0 for no pairs and non-negative when every factor is non-negative. |
| `AOLRoster.SumOfProductsAppend` | AOLRoster.py:16 | Adding one pair at the end adds exactly its product to the sum. |
| `AOLRoster.ZipPrefixCost` | AOLRoster.py:16 | The zipped sum over the first `n` positions equals the indexed reference sum over those positions. |
| `AOLRoster.ZipCostIsIndexedCost` | AOLRoster.py:16 | The zipped sum equals the reference sum of `funding[i] * years[i]` over all common positions. |
| `AOLRoster.IndexedCostPrefix` | AOLRoster.py:11-16 | Entries appended after position `n` do not change the cost of the first `n` entries. |
| `AOLRoster.IndexedCostAppend` | AOLRoster.py:10-16 | For lists of equal length, appending one entry adds exactly that entry's `funding * years` to the cost. |
| `AOLRoster.Step` | AOLRoster.py:19-32 | `"NSERC"` and `"CIHR"` give `Funded` and a notice with the account number, whatever the prior status. `"None"` keeps the prior status and gives the no-funding notice. Any other source fails, and the failure means exactly that the source is unrecognised and names it. No accepted step reaches `NotFunded`. |
| `AOLRoster.StepIdempotent` | AOLRoster.py:20-27 | Funding from `"NSERC"` or `"CIHR"` twice, with any account numbers, leaves the status `Funded`, the same as after one call. |
| `AOLRoster.TimLab.Funding` | AOLRoster.py:19-32 | The new status and the returned notice or error are the ones `Step` gives for the old status. On an error the status is unchanged. The three lists and the year never change, and the invariant is kept. |
| `AOLRoster.SampleRun` | AOLRoster.py:35-42 | The sample students (30,1), (30,0) and (30,3) give a total cost of 120, and `NSERC` funding then leaves the status `Funded`. |
| `AOLRoster.UnfundedScenarios` | AOLRoster.py:28-32 | On a fresh roster, `"None"` leaves the status `Unfunded`. `"DoesNotExist"` fails with an error naming that source and leaves the status `Unfunded`. |

## Left out

- Console output: the notices printed in `funding` (AOLRoster.py:21-22, 25-26, 29) are returned as `Notice` values. Their text, including the formatting of the account number, is not modelled.
- The driver script (AOLRoster.py:35-42) is not modelled as code. It appears only as the scenario method `SampleRun`.
- Sharing of the three lists between all instances, because they are Python class attributes (AOLRoster.py:2-4). Each roster owns its own lists here.
- The `year` label is stored and never read, as in the source. Nothing is proved about it beyond that no operation changes it.
- Dynamic typing. Values that are not numbers, which would fail only inside `sum`, cannot occur: funding and years are integers. Names are strings and the account number is an integer.
- The generic `Exception` type: the failure is the `UnknownFundingSource` error value, which carries the source string.
