# EcomCalc profitability engine and simulation history, in Dafny

EcomCalc is a one-page web calculator for the per-unit profitability of an
e-commerce product. The user types six values: sell price, product cost,
shipping cost, platform commission (in percent), advertising cost and other
variable costs. The page derives the commission value, the total cost, the
profit, the margin percent and a break-even estimate. It then gives a
three-way verdict: loss, low margin or profitable. Each run's result is
also kept in a per-session history, newest first, without duplicates, and
the first five entries are shown.

This project models that logic:

- `profitability.dfy`, module `Profitability`: the calculation and the verdict as pure functions over exact reals, with lemmas.
  - The break-even estimate is a datatype, `NotProfitable | Units(u)`. The program uses an infinite float for the first case.
  - The verdict is an enum, `Loss | LowMargin | Profitable`. The program uses advisory strings.
- `history.dfy`, module `SimulationHistory`: the snapshot record and the rounding it applies.
  - The pure specification of the dedup-prepend update is `Inserted`; the history built by successive runs is `HistoryAfter`.
  - The session object is a class, `Session`, with a `seq` field that `Record` and `Simulate` update in place.

The six form values become the fields of `Inputs`; the form defaults are `Profitability.Defaults`.

Two facts about the code that the model keeps:
- The commission is typed in percent and divided by 100 (line 20).
- With the form defaults, the profit is 8991. The margin is about 29.98 percent, so the verdict is `Profitable` (`DefaultsAreProfitable`).

## Model

| member | source | states |
|---|---|---|
| `Profitability.CommissionValue` | ecomcalc_final.py:20-25 | commission times 100 equals price times the entered percent; for a non-negative price and a percent in [0, 100] the commission lies between 0 and the price |
| `Profitability.Margin` | ecomcalc_final.py:28 | zero when the price is zero (no division); otherwise margin times price equals profit times 100; zero profit gives zero margin |
| `Profitability.BreakEvenUnits` | ecomcalc_final.py:29 | the sentinel exactly when price minus total cost is not positive; otherwise the denominator is positive and units times it equals the total cost; units are non-negative for a non-negative cost |
| `Profitability.Classify` | ecomcalc_final.py:32-37 | the verdict is total and exclusive: Loss iff profit < 0, LowMargin iff profit >= 0 and margin < 15, Profitable iff profit >= 0 and margin >= 15 |
| `Profitability.Compute` | ecomcalc_final.py:25-37 | profit plus total cost equals the price; commission, margin and break-even relations as above; the verdict cases; every Loss has the not-profitable break-even |
| `Profitability.TotalCost` | ecomcalc_final.py:20-26 | total cost times 100 equals the four fixed costs times 100 plus price times the entered percent; `TotalCostFromInputs` states the same for `Compute` |
| `Profitability.ChartComponents` | ecomcalc_final.py:52-59 | exactly six slices, in the program's order: product cost, shipping, the computed commission, advertising, other costs, the computed profit |
| `Profitability.ChartComponentsSumToPrice` | ecomcalc_final.py:52-59 | product, shipping, commission, advertising, other costs and profit sum exactly to the sell price |
| `Profitability.TotalCostFromInputs` | ecomcalc_final.py:20-26 | total cost in terms of the six inputs alone: the four fixed costs plus price times percent / 100 |
| `Profitability.ZeroPriceNeverProfitable` | ecomcalc_final.py:28-37 | with a zero price the margin is 0 and the verdict is Loss or LowMargin by the sign of the profit, never Profitable |
| `Profitability.ProfitableIsSound` | ecomcalc_final.py:28-37 | a Profitable verdict implies a positive price, a positive profit and a numeric break-even estimate |
| `Profitability.VerdictByPrice` | ecomcalc_final.py:28-37 | for a positive price: Profitable iff profit * 100 >= 15 * price; LowMargin iff 0 <= profit and profit * 100 < 15 * price |
| `Profitability.DefaultsAreProfitable` | ecomcalc_final.py:17-37 | the form defaults give commission 2999, total cost 20999, profit 8991, verdict Profitable, break-even 20999/8991 units |
| `Profitability.LossExample` | ecomcalc_final.py:25-37 | price 10000 against costs totalling 15000 gives Loss and the not-profitable sentinel |
| `Profitability.ProfitableExample` | ecomcalc_final.py:25-37 | price 50000 at 5 percent commission gives a 63 percent margin, Profitable, break-even 18500/31500 units |
| `SimulationHistory.RoundHalfEven` | ecomcalc_final.py:76-77 | the result is within 1/2 of the input, and an exact tie goes to the even integer |
| `SimulationHistory.RoundTo` | ecomcalc_final.py:76 | the result lies on the grid of multiples of 10^-digits, at the grid point `RoundHalfEven` picks for the scaled input (ties to even), so it is within half a grid step of the input |
| `SimulationHistory.RoundToKeepsExact` | ecomcalc_final.py:76 | a value that already has at most the kept number of decimals is unchanged by rounding |
| `SimulationHistory.RoundBreakEven` | ecomcalc_final.py:77 | the sentinel is kept and never produced from units; units become `RoundTo(units, 1)`, within 0.05 of the exact value |
| `SimulationHistory.TakeSnapshot` | ecomcalc_final.py:72-78 | the snapshot holds the price and the total cost and profit that `Compute` gives; its margin is `Compute`'s margin rounded to 2 decimals (within 0.005) and its break-even is `Compute`'s passed through `RoundBreakEven`; profit plus total cost is the price; the break-even is the sentinel iff profit <= 0 |
| `SimulationHistory.Inserted` | ecomcalc_final.py:80-81 | the offered snapshot is in the result; the length grows by one exactly when no equal snapshot was present; `InsertedShape`, `InsertedIdempotent` and `InsertedKeepsNoDuplicates` state the rest |
| `SimulationHistory.InsertedShape` | ecomcalc_final.py:80-81 | after the update the snapshot is present; the list is unchanged if an equal snapshot was anywhere in it, otherwise the snapshot is at index 0 followed by the old entries in order |
| `SimulationHistory.InsertedIdempotent` | ecomcalc_final.py:80-81 | offering the same snapshot twice gives the same list as offering it once |
| `SimulationHistory.InsertedKeepsNoDuplicates` | ecomcalc_final.py:80-81 | the update keeps a duplicate-free list duplicate-free |
| `SimulationHistory.FirstSeen` | ecomcalc_final.py:80-81 | the index of the first run that produced a snapshot: that run produced it and no earlier run did |
| `SimulationHistory.HistoryAfter` | ecomcalc_final.py:69-81 | the history is never longer than the number of runs and always holds the latest run's snapshot; `HistoryAfterNoDuplicates`, `HistoryAfterMembers` and `HistoryNewestFirst` state the rest |
| `SimulationHistory.HistoryAfterStep` | ecomcalc_final.py:69-81 | one more run gives the dedup-prepend of the previous history, still duplicate-free and newest first |
| `SimulationHistory.HistoryAfterNoDuplicates` | ecomcalc_final.py:69-81 | starting from the empty list, the history never holds two equal snapshots |
| `SimulationHistory.HistoryAfterMembers` | ecomcalc_final.py:69-81 | the history holds exactly the snapshots of the runs so far |
| `SimulationHistory.HistoryNewestFirst` | ecomcalc_final.py:69-81 | newest first: an entry nearer the front was first produced by a later run than every entry behind it |
| `SimulationHistory.Session.constructor` | ecomcalc_final.py:69-70 | a new session's history is empty |
| `SimulationHistory.Session.Record` | ecomcalc_final.py:80-81 | the stored list becomes the dedup-prepend of the old one; a new snapshot lands at index 0; the list stays duplicate-free and newest first |
| `SimulationHistory.Session.Simulate` | ecomcalc_final.py:25-81 | one page run returns the calculation of its inputs and records its snapshot, keeping the history invariants |
| `SimulationHistory.Session.Recent` | ecomcalc_final.py:84 | the displayed entries are a prefix of the stored list, at most 5 of them, exactly 5 when there are that many |

## Left out

- Web page rendering: page setup, logo, headings, the sidebar number inputs, metrics, the advisory box, columns and buttons. The six inputs are plain parameters instead.
- The advisory strings and their emoji. They are the three `Verdict` constructors.
- The pie chart drawing (lines 63-66). Only its six slices are modelled, as `ChartComponents` with the sum property.
- Negative chart slices: the plotting library may refuse a negative slice (a loss, or a negative cost). The program would then stop before the history update at lines 80-81. `Session.Simulate` records every run, because that behaviour belongs to the plotting library, which is not part of this model.
- The spreadsheet export (lines 88-98) and the PDF export (lines 101-116). They call foreign libraries that write binary files.
- Display formatting: the thousands separator, the two-decimal margin text and the one-decimal break-even text at lines 42-44 and 85.
- Floating point: money, margin and break-even are exact reals, not IEEE doubles. Python's `round` works on the binary value of a float, so a decimal tie such as 2.675 can round down there. `RoundTo` rounds the exact real, ties to even. For the same reason, two runs whose float snapshots compare equal may have different exact snapshots, and the reverse.
- Integer versus float inputs: the form returns integers for the integer-valued fields. Python compares integers and floats by value, so modelling all of them as reals does not change snapshot equality.
- The session store itself: the program looks the list up by key in the session state and creates it on first use (lines 69-70). Here it is the `Session` object, built once by its constructor.
