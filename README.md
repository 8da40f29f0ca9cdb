# Design-principle examples: product filter and journal

A Dafny model of the two small programs of this repository of object-oriented
design examples.

- **Open/Closed example** (`OpenClose`, `open_close.dfy`). Products have a name,
  a colour (Red, Green, Blue) and a size (Small, Medium, Large).
  `ProductFilter::by_color` takes a vector of product pointers and a colour.
  The code has `return result;` inside the `for` body, so it looks only at the first
  product. It returns that product if its colour matches, and nothing otherwise.
  On an empty vector it runs off the end of a value-returning function, which is
  undefined behaviour. `ByColor` follows that code. It is a method with the same
  loop and the same early return, and it requires a non-empty vector. Products are
  a class with constant fields because the source handles them through pointers,
  so "the result holds the same products" is reference equality. The early
  `return` is evidently a mistake; the full scan it prevents is stated separately
  as `Filter` and `FilterByColor`. The two are compared under "## Findings".
- **Single Responsibility example** (`SingleResponsibility`,
  `single_responsibility.dfy`). A `Journal` has a title and a list of entries.
  `AddEntry` appends `to_string(id) + ": " + text` and advances `id`. In the source
  `id` is a function-local `static int` that starts at 1 and is shared by every
  journal in the process. Here it is a `Counter` object passed to every
  `AddEntry` call, so journals given the same counter continue one numbering.
  `Journal::Save` and `PersistanceManager::Save` write each entry followed by
  `std::endl`. Both are modelled as methods that return the text they would write.
  They share one loop, `WriteLines`, whose specification is `Rendered`.
- **Decimal numbers** (`Decimal`, `decimal.dfy`). `NatToString` mirrors
  `std::to_string` on non-negative integers.

Some functions read the data back: `StringToNat`, `ParseEntry` and `Lines`. The
programs do not contain them. They let the model prove that the written forms
lose nothing, shown by round-trip lemmas.

## Model

| member | source | states |
|---|---|---|
| `OpenClose.Product.constructor` | Open-ClosePrinciple/src/main.cpp:20-25 | a product records the name, colour and size it is built with |
| `OpenClose.ByColor` | Open-ClosePrinciple/src/main.cpp:29-39 | for a non-empty vector, the result is `[items[0]]` if its colour matches and `[]` otherwise; it has at most one element; every element has the requested colour; it is a prefix of the input holding the same products; it equals the intended filter applied to the first product alone |
| `OpenClose.ByColorAgreesWithFilterIff` | Open-ClosePrinciple/src/main.cpp:32-38 | the as-written filter gives the same result as the full scan exactly when no product after the first has the colour |
| `OpenClose.Filter` | Open-ClosePrinciple/src/main.cpp:32-35 | the intended filter: its result is no longer than the input, and a product is in it exactly when it is in the input and has the colour |
| `OpenClose.FilterAppend` | Open-ClosePrinciple/src/main.cpp:32-35 | filtering a concatenation is the concatenation of the filtered parts, so input order is kept |
| `OpenClose.FilterIdempotent` | Open-ClosePrinciple/src/main.cpp:32-35 | filtering an already filtered list by the same colour changes nothing |
| `OpenClose.FilterEmptyIff` | Open-ClosePrinciple/src/main.cpp:34-35 | the intended filter gives nothing exactly when no product has the colour |
| `OpenClose.FilterByColor` | Open-ClosePrinciple/src/main.cpp:29-39 | `by_color` with the `return` moved after the loop computes exactly the intended filter |
| `OpenClose.MainScenario` | Open-ClosePrinciple/src/main.cpp:44-46 | on `[apple, tree, house]`, the as-written filter gives `[apple]` for Green and `[]` for Blue; the intended filter gives `[apple, tree]` for Green and `[house]` for Blue |
| `Decimal.NatToString` | SingleResponsibilityPrinciple/src/main.cpp:24 | `std::to_string` of a non-negative number: at least one digit, all digits, a leading zero only for 0, a single digit exactly below 10 |
| `Decimal.StringToNatOfNatToString` | SingleResponsibilityPrinciple/src/main.cpp:24 | reading the decimal form back gives the number |
| `Decimal.NatToStringOfStringToNat` | SingleResponsibilityPrinciple/src/main.cpp:24 | every canonical digit string is the decimal form of its own value |
| `Decimal.NatToStringInjective` | SingleResponsibilityPrinciple/src/main.cpp:24 | different numbers have different decimal forms |
| `SingleResponsibility.EntryLineRoundTrip` | SingleResponsibilityPrinciple/src/main.cpp:24 | a stored entry line is its number's decimal form, then `": "`, then the text, and both number and text can be recovered from it |
| `SingleResponsibility.EntryLinesDistinct` | SingleResponsibilityPrinciple/src/main.cpp:23-24 | lines with different numbers differ, whatever their texts |
| `SingleResponsibility.Counter.constructor` | SingleResponsibilityPrinciple/src/main.cpp:23 | the entry counter starts at 1 |
| `SingleResponsibility.Journal.constructor` | SingleResponsibilityPrinciple/src/main.cpp:19 | a new journal has the given title and no entries |
| `SingleResponsibility.Journal.AddEntry` | SingleResponsibilityPrinciple/src/main.cpp:21-26 | the entries grow by exactly one line at the end, numbered with the counter's value before the call; earlier entries and the title are unchanged; the counter goes up by one |
| `SingleResponsibility.Rendered` | SingleResponsibilityPrinciple/src/main.cpp:33-34 | the saved text is empty exactly when there are no entries, and otherwise ends with a newline |
| `SingleResponsibility.RenderedAppend` | SingleResponsibilityPrinciple/src/main.cpp:33-34 | the saved text of a concatenation is the two saved texts in order, so each entry is written once, in vector order, followed by a newline |
| `SingleResponsibility.RenderedAfterAdd` | SingleResponsibilityPrinciple/src/main.cpp:24 | after an `AddEntry`, the saved text is the old text followed by the new line and a newline |
| `SingleResponsibility.LinesOfRendered` | SingleResponsibilityPrinciple/src/main.cpp:48-49 | when no entry holds a newline, splitting the saved text into lines gives back exactly the entries |
| `SingleResponsibility.WriteLines` | SingleResponsibilityPrinciple/src/main.cpp:48-49 | the write loop produces exactly the rendered text of the lines |
| `SingleResponsibility.Journal.Save` | SingleResponsibilityPrinciple/src/main.cpp:29-38 | `Journal::Save` writes the rendered text of the journal's entries and changes nothing |
| `SingleResponsibility.PersistanceManager.Save` | SingleResponsibilityPrinciple/src/main.cpp:44-53 | `PersistanceManager::Save` writes the rendered text of the journal it is given and changes nothing |
| `SingleResponsibility.MainFirstLine` | SingleResponsibilityPrinciple/src/main.cpp:60 | the first line `main` adds reads `"1: I learned about Quaternions"` |
| `SingleResponsibility.MainSecondLine` | SingleResponsibilityPrinciple/src/main.cpp:61 | the second line `main` adds reads `"2: I have implemented a Quaternion class"` |
| `SingleResponsibility.MainScenario` | SingleResponsibilityPrinciple/src/main.cpp:59-65 | `main`'s two calls produce `["1: I learned about Quaternions", "2: I have implemented a Quaternion class"]`, and the saved text is each of them followed by a newline |
| `SingleResponsibility.SharedCounterScenario` | SingleResponsibilityPrinciple/src/main.cpp:23 | with the shared counter, a second journal continues the numbering: entries a, b, c added to journals one, two, one are numbered 1, 2, 3 |

## Left out

- Console output (`std::cout` in both programs) and `std::cin.get()`: I/O with no logic.
- Opening, writing and closing the `std::ofstream`: the save methods return the text they would write. The file name parameter is not modelled.
- `std::endl` also flushes the stream. Only the `'\n'` it writes is modelled.
- Both `main` functions as programs: their data become the two `MainScenario` methods.
- Counter overflow past `INT_MAX`: the counter is a `nat`. That overflow is undefined behaviour in the source and out of reach at this scale.
- The `static` counter's process-wide lifetime is modelled by passing one `Counter` object to every `AddEntry`. Nothing stops a caller from making a second counter, which the source cannot do.
- `ByColor`: the guarantee that the caller's vector and the products are not changed is not an `ensures` clause. It follows from the types: the vector is a sequence value, the product fields are constants, and the method has no `modifies` clause.
- The repository contains no size-based or combined filters; `Size` is modelled only as a field.
- `ByColor`: a null pointer among the products is excluded by the non-null type `Product`. In the source, a null first pointer is dereferenced by `item->m_color` at Open-ClosePrinciple/src/main.cpp:34, which is undefined behaviour.

## Findings

| source | as written | input that shows it | evidently intended | confidence | as-written member | corrected member |
|---|---|---|---|---|---|---|
| Open-ClosePrinciple/src/main.cpp:37 | `return result;` sits inside the `for` body, so only the first product is examined; an empty vector falls off the end of the function | `[apple, tree, house]` with Green gives `[apple]`, not `[apple, tree]`; an empty vector returns no value | return after the loop, keeping every product of the colour in order | high, not executed | `OpenClose.ByColor` (with `OpenClose.MainScenario` and `OpenClose.ByColorAgreesWithFilterIff`) | `OpenClose.FilterByColor` |
