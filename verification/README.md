# Product cost and profitability screens, in Dafny

This project models the two product-management screens of a small retail
dashboard (an açaí shop). Each screen keeps an in-memory list and applies
validated edits to it. Each also keeps derived numbers that must stay
consistent with their inputs.

- **Supplier costs** (`src/components/Fornecedores.tsx`, module `Fornecedores`).
  Every product has an ordered list of cost lines. A line is a batch bought
  for a total value and split over a quantity, so its unit cost is
  total ÷ quantity. The product stores an aggregate unit cost, which is
  re-summed from its lines after every edit.
  - The state is the class `Fornecedores.Screen`. Its fields are the product
    list, the product snapshot open in the detail dialog, and the two forms.
  - `Valid()` says two things. Every product's aggregate equals the sum of
    its lines' unit costs, and every line's unit cost is its total ÷ its
    non-zero quantity. The open snapshot is one of the listed products, so
    the list and the snapshot stay in sync.
- **Product catalogue** (`src/components/Produtos.tsx`, module `Produtos`).
  Every product has a unit cost and a sale price. It stores
  profit = sale − cost and margin = profit ÷ sale × 100.
  - The state is the class `Produtos.Screen`. Its fields are the product
    list, the modal's open flag, the product being edited and the form.
  - `Valid()` says every stored product passed the save checks and carries
    the figures `calcularLucro` derives.
  - The two summary figures are pure functions of the list: the average
    margin and the most profitable product.
- Module `IdLists` holds the two list edits both screens use: replace-by-id
  (`list.map(p => p.id === id ? updated : p)`) and remove-by-id
  (`list.filter(p => p.id !== id)`).

Modelling choices:
- Money and quantities are `real`, so every equality is exact.
- Fresh ids (`Date.now()`) and date stamps are method parameters.
- A numeric field is "missing" (`!x` in the source) exactly when it is 0.
- Ids are never assumed unique. The replace and remove edits act on every
  element that carries the id, as `map` and `filter` do.

Two behaviours of the code worth knowing:
- `adicionarCusto` rejects only a total value or quantity of exactly 0
  (`src/components/Fornecedores.tsx:89`). Negative values are accepted, which
  gives negative unit costs.
- On a tie of margins the later product is the most profitable
  (`src/components/Produtos.tsx:152`), because the reducer keeps `prev` only
  when its margin is strictly greater.

## Model

| member | source | states |
|---|---|---|
| `IdLists.ReplaceById` | src/components/Fornecedores.tsx:113 | Same length. Each element whose id matches becomes the update, and every other element stays in place. Every result element is the update or an untouched old element. If some old element carries the id, the update is in the result. |
| `IdLists.RemoveById` | src/components/Fornecedores.tsx:126 | The result holds exactly the old elements whose id differs from the given one, and it is no longer than the input. |
| `IdLists.RemoveAbsentId` | src/components/Fornecedores.tsx:126 | Removing an id that no element carries gives back the list unchanged. |
| `IdLists.RemoveByIdAppend` | src/components/Produtos.tsx:140 | Removal distributes over concatenation, so the survivors keep their relative order. |
| `IdLists.SelectById` | src/components/Fornecedores.tsx:126 | The complement of the filter: exactly the elements whose id is the given one. |
| `IdLists.RemoveSelectLength` | src/components/Produtos.tsx:140 | The kept elements and the dropped elements together number as many as the input. |
| `Fornecedores.SumUnitCosts` | src/components/Fornecedores.tsx:110 | The left-fold sum of the lines' unit costs, as the `reduce` at lines 110 and 127. It is non-negative when every unit cost is. |
| `Fornecedores.SumUnitCostsAppend` | src/components/Fornecedores.tsx:110 | The left-fold sum of unit costs over a concatenation is the sum of the two parts. So the old lines' sum plus the new unit cost is the sum over the new list. |
| `Fornecedores.SumUnitCostsRemove` | src/components/Fornecedores.tsx:126-127 | Re-summing the kept lines gives the old sum less the unit costs of the lines with the removed id. |
| `Fornecedores.SeedConsistent` | src/components/Fornecedores.tsx:30-52 | The seed product is consistent: 40/100 = 0.40, 15/50 = 0.30, and the stored aggregate 0.70 is their sum. |
| `Fornecedores.NewProduct` | src/components/Fornecedores.tsx:72-78 | A created product has the given id, the form's name and photo, no cost lines and aggregate 0, so it is consistent. |
| `Fornecedores.CostAccepted` | src/components/Fornecedores.tsx:89 | The guard of `adicionarCusto`: a product is selected, the name is non-empty, and total and quantity are non-zero. Acceptance makes the division by the quantity defined. |
| `Fornecedores.NewCostLine` | src/components/Fornecedores.tsx:98-105 | The new line keeps the form's name, total and quantity under the fresh id. Its unit cost times the quantity is the total, so the line is consistent. |
| `Fornecedores.WithCost` | src/components/Fornecedores.tsx:107-111 | The line goes at the end and earlier lines are untouched. The aggregate equals the sum over the new list, whatever the old aggregate was. The result is consistent when the lines are. |
| `Fornecedores.WithoutCost` | src/components/Fornecedores.tsx:126-133 | The lines become the old lines minus those with the id, shorter by exactly the matching lines. The aggregate equals the sum over the kept lines, whatever the old aggregate was. A consistent product stays consistent, and its aggregate drops by the removed unit costs. An absent id leaves the lines, and a consistent product, unchanged. |
| `Fornecedores.Screen.constructor` | src/components/Fornecedores.tsx:30-60 | Starts on the seed products, with nothing selected and both forms empty. The invariant holds. |
| `Fornecedores.Screen.EditProductForm` | src/components/Fornecedores.tsx:169-178 | Typing sets the product form's name and photo; nothing else changes. |
| `Fornecedores.Screen.EditCostForm` | src/components/Fornecedores.tsx:272-293 | Typing sets the cost form's name, total value and quantity; nothing else changes. |
| `Fornecedores.Screen.Select` | src/components/Fornecedores.tsx:194 | Clicking a listed product opens it as the snapshot, and the invariant is kept. |
| `Fornecedores.Screen.CloseDetail` | src/components/Fornecedores.tsx:227 | Closing the dialog clears the snapshot. |
| `Fornecedores.Screen.AddProduct` | src/components/Fornecedores.tsx:62-86 | Succeeds iff the name is non-empty. A rejection changes nothing. Success appends the new product at the end and resets the product form. The invariant is kept. |
| `Fornecedores.Screen.AddCost` | src/components/Fornecedores.tsx:88-121 | Succeeds iff a product is selected, the name is non-empty, and total and quantity are non-zero. A rejection leaves the list, the snapshot and the form unchanged. Success appends the line to the snapshot and re-sums the aggregate. The updated snapshot replaces every listed product with its id, and the form is cleared. The invariant is kept. |
| `Fornecedores.Screen.RemoveCost` | src/components/Fornecedores.tsx:123-137 | With no selection nothing changes. Otherwise the snapshot loses every line with the id and is written over the listed products with its id. An absent id leaves the snapshot unchanged. The invariant is kept. |
| `Produtos.CalculateProfit` | src/components/Produtos.tsx:53-57 | Profit plus cost is the sale price. With a positive sale price, margin × sale = profit × 100. Otherwise the margin is 0. |
| `Produtos.AcceptedEarningsBounds` | src/components/Produtos.tsx:81-99 | When 0 < cost < sale, profit > 0 and 0 < margin < 100. |
| `Produtos.ValidateForm` | src/components/Produtos.tsx:80-97 | A save is accepted iff the name is non-empty and 0 < cost < sale. The first error (invalid fields) is reported iff the name is empty or a price is ≤ 0. |
| `Produtos.WellPricedBounds` | src/components/Produtos.tsx:99 | Every stored product has profit > 0 and a margin strictly between 0 and 100. |
| `Produtos.FormOf` | src/components/Produtos.tsx:62-66 | The form loaded from a stored product passes validation. |
| `Produtos.Edited` | src/components/Produtos.tsx:103-110 | Keeps the id and creation date. Takes name, cost and sale from the form, with profit and margin derived from them. It is well priced when the form is valid. |
| `Produtos.Created` | src/components/Produtos.tsx:119-127 | Carries the fresh id and date stamp, the form's fields and the derived profit and margin. It is well priced when the form is valid. |
| `Produtos.SeedWellPriced` | src/components/Produtos.tsx:24-43 | The seed products are consistent: 8 − 2.5 = 5.5 at 68.75%, and 6 − 1.8 = 4.2 at 70%. |
| `Produtos.AverageMargin` | src/components/Produtos.tsx:147-149 | 0 for an empty list. Otherwise the average times the count is the sum of the margins, so it is their arithmetic mean. |
| `Produtos.SumMargins` | src/components/Produtos.tsx:148 | The left-fold sum of the margins, as the `reduce` at line 148. It is non-negative when every margin is. |
| `Produtos.SumMarginsBounds` | src/components/Produtos.tsx:148 | If every margin lies strictly between lo and hi, then n·lo < sum of margins < n·hi. |
| `Produtos.AverageMarginBounds` | src/components/Produtos.tsx:147-149 | If every margin lies strictly between lo and hi, so does the average. |
| `Produtos.Better` | src/components/Produtos.tsx:152 | The reducer returns one of its arguments with the larger margin. On a tie it returns the current (later) one. |
| `Produtos.FoldBest` | src/components/Produtos.tsx:152 | The `reduce` of line 152 from a starting product: returns the start or an element of the rest, with a margin at least the start's and every later margin. |
| `Produtos.LastBestIndex` | src/components/Produtos.tsx:151-153 | Reference definition: a position whose margin is ≥ every margin, with every later margin strictly smaller. |
| `Produtos.FoldBestIsLastBest` | src/components/Produtos.tsx:152 | The left fold of the reducer returns the element at the last position holding the greatest margin. |
| `Produtos.MostProfitable` | src/components/Produtos.tsx:151-153 | None iff the list is empty. Otherwise it is the element at the last best position: an element of the list whose margin is ≥ every margin. |
| `Produtos.SummaryBounds` | src/components/Produtos.tsx:147-153 | Over stored products, the average margin and the most profitable margin are both strictly between 0 and 100. |
| `Produtos.SeedSummary` | src/components/Produtos.tsx:24-43 | On the seed data the average margin is 69.375, and the most profitable product is the 70% one. |
| `Produtos.Screen.constructor` | src/components/Produtos.tsx:24-51 | Starts on the seed products stamped with the given date, with the modal closed, nothing edited and an empty form. The invariant holds. |
| `Produtos.Screen.OpenModal` | src/components/Produtos.tsx:59-72 | Opens the modal. It either edits the given product, with the form loaded from it, or creates, with an empty form. |
| `Produtos.Screen.CloseModal` | src/components/Produtos.tsx:74-78 | Closes the modal, forgets the edited product and zeroes the form. |
| `Produtos.Screen.EditForm` | src/components/Produtos.tsx:302-326 | Typing sets the form's name, cost and sale price; nothing else changes. |
| `Produtos.Screen.Save` | src/components/Produtos.tsx:80-137 | The outcome is the validation result. A refusal leaves the list, the modal flag, the edited product and the form unchanged. In edit mode every product with the edited id is replaced; in create mode one product is appended at the end. Either success closes the modal, clears the edited product and zeroes the form. The invariant is kept. |
| `Produtos.Screen.Delete` | src/components/Produtos.tsx:139-145 | Removes every product with that product's id, keeping the rest in order. The invariant is kept. |

## Left out

- `src/components/Dashboard.tsx`: it displays fixed mock figures and has no state or decisions.
- `src/components/Layout.tsx` and `src/pages/Index.tsx`: sidebar toggling and tab routing, which are pure presentation.
- Toast notifications: each screen operation returns its outcome (`ok`, or the `SaveError`) instead of calling the toast.
- Rendering, dialogs, icons, `toFixed`/`toLocaleString`/`toLocaleDateString` formatting and the margin badge tiers are presentation only.
- `Date.now()` ids and ISO date stamps are not clock reads here: they are passed in as method parameters.
- IEEE floating point is not modelled. Amounts are exact reals, so there is no rounding.
- `NaN` from `Number(e.target.value)` is not modelled. On the cost screen `NaN` is falsy, so `!x` at `src/components/Fornecedores.tsx:89` rejects it. The catalogue's `salvarProduto` accepts it: `x <= 0` (line 81) and `valorVenda <= custoUnitario` (line 90) are both false for `NaN`, so the source would store a product with `NaN` cost, sale, profit and margin. `Produtos.Screen.Valid()` does not hold of such a product, so the model's catalogue invariant covers only numeric input.
- React's asynchronous state batching is not modelled. Each handler runs to completion on the current state, as the screens' single-threaded event handling does.
- There is no persistence: the Supabase notice cards only display text.
