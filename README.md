# Shopping cart service, modelled in Dafny

This project models `ShoppingCartService` and `CartItem` from the MutationApp
namespace. A cart owns an ordered list of cart items, and duplicates are allowed.
`AddItem` appends an item. `RemoveItem` deletes the first entry that is the given
item, or does nothing when the item is not there. `IsEmpty`, `IsDiscountEligible`
and `CalculateTotalPriceWithoutDiscount` are read-only queries over the list.

Everything is in `shopping_cart_service.dfy`, in module `MutationApp`:

- `CartItem` is a class, as in the source. The source class does not override
  `Equals`, so `List<T>.Remove` matches items by reference. Dafny compares class
  instances by reference in the same way. Two items with the same name, price and
  quantity are therefore two different entries (see `Scenarios`). Removal never
  compares names, prices or quantities.
- `Price` is a C# `decimal`, which is exact. It is modelled as `real`, which is also
  exact. `Quantity` is `int`.
- `ShoppingCartService` keeps the list as a `seq<CartItem>` field, `items`.
  `AddItem` and `RemoveItem` are methods with `modifies this`. The three queries are
  functions that only `reads this`, so by construction they cannot change the list.
- `RemoveItem` follows what `List<T>.Remove` does: it finds the first index of the
  item (`FirstIndexOf`, which returns -1 when the item is absent, as `IndexOf` does)
  and splices that entry out. `RemoveFirst` gives an independent recursive
  definition of the same removal. `RemoveFirstIsSplice` and `RemoveFirstAbsent`
  prove that the two definitions agree.
- The LINQ `Select(...).Sum()` becomes `Total`, a recursive sum of `LineTotal`
  (price times quantity) from the first entry to the last.
  `CalculateTotalPriceWithoutDiscount()` is `Total(items)` (its body is visible to
  callers), so every `Total…` lemma applies to the query directly. The lemmas say
  how the total changes under append and under removal.
- `Scenarios` is client code that uses only the contracts: an empty cart; five
  items of 2.00 × 1, which make the cart eligible with a total of 10.00; one item
  added and then removed; two items with equal fields, where only the removed one
  disappears.

## Model

| member | source | states |
|---|---|---|
| MutationApp.CartItem.constructor | MutationApp/ShoppingCartService.cs:37-42 | A new item holds the given name, price and quantity, and the fields are fixed from then on |
| MutationApp.ShoppingCartService.constructor | MutationApp/ShoppingCartService.cs:18 | A new cart has no entries, is empty, totals 0 and is not eligible for a discount |
| MutationApp.ShoppingCartService.AddItem | MutationApp/ShoppingCartService.cs:21 | The new list is the old list plus the item at the end: one entry longer, every earlier entry at its old index, not empty, and the total is higher by exactly the item's price × quantity |
| MutationApp.ShoppingCartService.RemoveItem | MutationApp/ShoppingCartService.cs:24 | If the item occurs, only the entry at its smallest index is spliced out, so the list is one shorter, holds one fewer occurrence, and the total drops by exactly the item's price × quantity. If the item does not occur, the list and the total are unchanged |
| MutationApp.ShoppingCartService.IsEmpty | MutationApp/ShoppingCartService.cs:27 | True exactly when the list has no entries, and an empty cart totals 0 |
| MutationApp.ShoppingCartService.IsDiscountEligible | MutationApp/ShoppingCartService.cs:13-30 | True exactly when the number of entries is at least 5, whatever their quantities. An eligible cart is never empty |
| MutationApp.ShoppingCartService.CalculateTotalPriceWithoutDiscount | MutationApp/ShoppingCartService.cs:33 | 0 for an empty cart. Otherwise it is the first entry's price × quantity plus the sum over the remaining entries |
| MutationApp.FirstIndexOf | MutationApp/ShoppingCartService.cs:24 | The index that `Remove` locates: -1 exactly when the item is absent. Otherwise it is an index holding the item, and no earlier index holds it |
| MutationApp.RemoveFirst | MutationApp/ShoppingCartService.cs:24 | Reference removal of the first occurrence: one entry shorter when the item is present, the same length when it is not |
| MutationApp.RemoveFirstMultiset | MutationApp/ShoppingCartService.cs:24 | Removal takes away exactly one occurrence of the item (none if it is absent) and leaves every other entry, duplicates of the item included |
| MutationApp.RemoveFirstIsSplice | MutationApp/ShoppingCartService.cs:24 | When the item is present, removal equals `items[..i] + items[i+1..]`, where i is its first index |
| MutationApp.RemoveFirstAbsent | MutationApp/ShoppingCartService.cs:24 | When the item is absent, removal returns the list unchanged |
| MutationApp.TotalAppend | MutationApp/ShoppingCartService.cs:33 | The total of two lists joined together is the sum of their totals |
| MutationApp.TotalCons | MutationApp/ShoppingCartService.cs:33 | The total is the first entry's price × quantity plus the total of the rest |
| MutationApp.TotalRemoveAt | MutationApp/ShoppingCartService.cs:33 | Deleting the entry at any index lowers the total by exactly that entry's price × quantity |
| MutationApp.TotalRemoveFirst | MutationApp/ShoppingCartService.cs:24-33 | After removal the total is lower by the item's price × quantity when the item was present, and unchanged otherwise |

## Left out

- Decimal limits: C# `decimal` arithmetic can throw `OverflowException` near 7.9e28 and rounds beyond 28–29 significant digits. Prices and totals here are exact and unbounded.
- The public `items` field: in the source, outside code can reach the mutable list and change it directly, also through an alias. Here `items` is a `seq` value, which cannot be changed through an alias. No code in this project assigns `items` except the constructor, `AddItem` and `RemoveItem`, but the field stays a public `var`, so a client could still assign it.
- Nulls: `List<T>` accepts `null` entries and `Remove(null)`. The model uses non-null `CartItem` references.
- Item setters: the source lets callers change `Name`, `Price` and `Quantity` after an item is added. Here the fields are `const`, so an item cannot change once it is added. `Name` takes no part in any behaviour.
- Validation: the source has none, so negative prices and quantities are accepted and flow into the total. The model accepts them too and adds no precondition.
- Concurrency: the source assumes single-threaded use, and so does the model.
