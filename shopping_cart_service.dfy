/**
  A shopping cart that owns an ordered, mutable list of cart items.

  Items are objects: the cart finds an item to remove by reference identity,
  never by comparing names, prices or quantities. Prices are exact decimal
  amounts, modelled as `real` (exact rationals, without the decimal type's
  range limit).
 */
module MutationApp {

  /** A line entry of the cart. Its fields are fixed once the item exists. */
  class CartItem {
    const name: string
    const price: real
    const quantity: int

    constructor (name: string, price: real, quantity: int)
      ensures this.name == name && this.price == price && this.quantity == quantity
    {
      this.name := name;
      this.price := price;
      this.quantity := quantity;
    }
  }

  /** What one entry contributes to the cart's total: unit price times quantity. */
  function LineTotal(item: CartItem): real {
    item.price * item.quantity as real
  }

  /** The sum of the line totals, accumulated from the first entry to the last. */
  function Total(s: seq<CartItem>): real {
    if s == [] then 0.0 else Total(s[..|s| - 1]) + LineTotal(s[|s| - 1])
  }

  /** The total of a concatenation is the sum of the totals of its parts. */
  lemma {:induction false} TotalAppend(s: seq<CartItem>, t: seq<CartItem>)
    ensures Total(s + t) == Total(s) + Total(t)
  {
    if t == [] {
      assert s + t == s;
    } else {
      var t' := t[..|t| - 1];
      assert (s + t)[..|s + t| - 1] == s + t';
      TotalAppend(s, t');
    }
  }

  /** The total can equally be taken from the front: first line plus the rest. */
  lemma TotalCons(s: seq<CartItem>)
    requires |s| > 0
    ensures Total(s) == LineTotal(s[0]) + Total(s[1..])
  {
    assert s == [s[0]] + s[1..];
    TotalAppend([s[0]], s[1..]);
  }

  /** Deleting the entry at index i lowers the total by exactly that entry's line total. */
  lemma TotalRemoveAt(s: seq<CartItem>, i: int)
    requires 0 <= i < |s|
    ensures Total(s[..i] + s[i + 1..]) == Total(s) - LineTotal(s[i])
  {
    assert s == s[..i] + [s[i]] + s[i + 1..];
    TotalAppend(s[..i] + [s[i]], s[i + 1..]);
    TotalAppend(s[..i], [s[i]]);
    TotalAppend(s[..i], s[i + 1..]);
  }

  /**
    The index of the first entry that is the object x, or -1 when x is not in s,
    compared by reference as List<T>.IndexOf does for a class without its own Equals.
   */
  function FirstIndexOf(s: seq<CartItem>, x: CartItem): (r: int)
    ensures -1 <= r < |s|
    ensures r == -1 <==> x !in s
    ensures 0 <= r < |s| ==> s[r] == x && x !in s[..r]
  {
    if s == [] then -1
    else if s[0] == x then 0
    else
      var k := FirstIndexOf(s[1..], x);
      if k < 0 then
        assert s == [s[0]] + s[1..];
        -1
      else
        assert s[..k + 1] == [s[0]] + s[1..][..k];
        k + 1
  }

  /**
    Reference definition of first-occurrence removal: walk the list and drop the
    first entry that is x; a list without x comes back unchanged.
   */
  function RemoveFirst(s: seq<CartItem>, x: CartItem): (r: seq<CartItem>)
    ensures |r| == if x in s then |s| - 1 else |s|
  {
    if s == [] then []
    else if s[0] == x then s[1..] else [s[0]] + RemoveFirst(s[1..], x)
  }

  /** Removal takes away exactly one occurrence of x, and nothing else. */
  lemma {:induction false} RemoveFirstMultiset(s: seq<CartItem>, x: CartItem)
    ensures multiset(RemoveFirst(s, x)) == multiset(s) - multiset{x}
  {
    if s != [] {
      assert s == [s[0]] + s[1..];
      RemoveFirstMultiset(s[1..], x);
    }
  }

  /** Removing an object that is present splices out the entry at its first index. */
  lemma {:induction false} RemoveFirstIsSplice(s: seq<CartItem>, x: CartItem)
    requires x in s
    ensures FirstIndexOf(s, x) >= 0
    ensures RemoveFirst(s, x) == s[..FirstIndexOf(s, x)] + s[FirstIndexOf(s, x) + 1..]
  {
    if s[0] != x {
      var t := s[1..];
      assert x in t;
      var k := FirstIndexOf(t, x);
      RemoveFirstIsSplice(t, x);
      assert FirstIndexOf(s, x) == k + 1;
      calc {
        RemoveFirst(s, x);
        [s[0]] + RemoveFirst(t, x);
        [s[0]] + (t[..k] + t[k + 1..]);
        { assert [s[0]] + t[..k] == s[..k + 1]; assert t[k + 1..] == s[k + 2..]; }
        s[..k + 1] + s[k + 2..];
      }
    }
  }

  /** Removing an object that is absent changes nothing. */
  lemma {:induction false} RemoveFirstAbsent(s: seq<CartItem>, x: CartItem)
    requires x !in s
    ensures RemoveFirst(s, x) == s
  {
    if s != [] {
      assert x !in s[1..];
      RemoveFirstAbsent(s[1..], x);
    }
  }

  /** The total after a removal: one line total less when x was present, unchanged otherwise. */
  lemma TotalRemoveFirst(s: seq<CartItem>, x: CartItem)
    ensures Total(RemoveFirst(s, x)) == if x in s then Total(s) - LineTotal(x) else Total(s)
  {
    if x in s {
      RemoveFirstIsSplice(s, x);
      TotalRemoveAt(s, FirstIndexOf(s, x));
    } else {
      RemoveFirstAbsent(s, x);
    }
  }

  /**
    The cart: an ordered list of entries, duplicates allowed. No code here assigns
    `items` except the constructor, AddItem and RemoveItem; being a `seq` value,
    the list cannot be changed through an alias.
   */
  class ShoppingCartService {
    /** Minimum number of entries for the cart to be eligible for a discount. */
    static const DiscountThresholdQuantity: int := 5

    var items: seq<CartItem>

    constructor ()
      ensures items == []
      ensures IsEmpty() && !IsDiscountEligible() && CalculateTotalPriceWithoutDiscount() == 0.0
    {
      items := [];
    }

    /** Appends item after every entry already in the cart. */
    method AddItem(item: CartItem)
      modifies this
      ensures items == old(items) + [item]
      ensures |items| == |old(items)| + 1
      ensures forall k :: 0 <= k < |old(items)| ==> items[k] == old(items)[k]
      ensures !IsEmpty()
      ensures CalculateTotalPriceWithoutDiscount()
           == old(CalculateTotalPriceWithoutDiscount()) + LineTotal(item)
    {
      TotalAppend(items, [item]);
      items := items + [item];
    }

    /** Removes the first entry that is the object item; does nothing when item is not in the cart. */
    method RemoveItem(item: CartItem)
      modifies this
      ensures items == RemoveFirst(old(items), item)
      ensures item in old(items) ==>
                var i := FirstIndexOf(old(items), item);
                0 <= i && items == old(items)[..i] + old(items)[i + 1..]
      ensures item !in old(items) ==> items == old(items)
      ensures multiset(items) == multiset(old(items)) - multiset{item}
      ensures |items| == if item in old(items) then |old(items)| - 1 else |old(items)|
      ensures CalculateTotalPriceWithoutDiscount()
           == if item in old(items)
              then old(CalculateTotalPriceWithoutDiscount()) - LineTotal(item)
              else old(CalculateTotalPriceWithoutDiscount())
    {
      var i := FirstIndexOf(items, item);
      if i >= 0 {
        RemoveFirstIsSplice(items, item);
        RemoveFirstMultiset(items, item);
        TotalRemoveAt(items, i);
        items := items[..i] + items[i + 1..];
      } else {
        RemoveFirstAbsent(items, item);
        RemoveFirstMultiset(items, item);
      }
    }

    /** True exactly when the cart holds no entry; an empty cart totals zero. */
    function IsEmpty(): (r: bool)
      reads this
      ensures r <==> items == []
      ensures r ==> CalculateTotalPriceWithoutDiscount() == 0.0
    {
      |items| == 0
    }

    /**
      True exactly when the cart holds at least DiscountThresholdQuantity entries.
      Entries are counted; their quantities play no part.
     */
    function IsDiscountEligible(): (r: bool)
      reads this
      ensures r <==> |items| >= 5
      ensures r ==> !IsEmpty()
    {
      |items| >= DiscountThresholdQuantity
    }

    /**
    The sum of price times quantity over all entries, with no discount applied.
    The value is `Total(items)`, so TotalAppend, TotalRemoveAt and TotalRemoveFirst
    apply to it; the ensures give the front-first form of that sum.
   */
    function CalculateTotalPriceWithoutDiscount(): (r: real)
      reads this
      ensures items == [] ==> r == 0.0
      ensures items != [] ==> r == LineTotal(items[0]) + Total(items[1..])
    {
      if items != [] then TotalCons(items); Total(items) else Total(items)
    }
  }

  /** Client code: what callers can conclude from the cart's contracts alone. */
  method Scenarios() {
    var cart := new ShoppingCartService();
    assert cart.IsEmpty() && cart.CalculateTotalPriceWithoutDiscount() == 0.0;
    assert !cart.IsDiscountEligible();

    var i1 := new CartItem("item", 2.0, 1);
    var i2 := new CartItem("item", 2.0, 1);
    var i3 := new CartItem("item", 2.0, 1);
    var i4 := new CartItem("item", 2.0, 1);
    cart.AddItem(i1);
    cart.AddItem(i2);
    cart.AddItem(i3);
    cart.AddItem(i4);
    assert !cart.IsDiscountEligible();
    var i5 := new CartItem("item", 2.0, 1);
    cart.AddItem(i5);
    assert cart.IsDiscountEligible() && cart.CalculateTotalPriceWithoutDiscount() == 10.0;

    var other := new ShoppingCartService();
    var pair := new CartItem("pair", 3.0, 2);
    other.AddItem(pair);
    other.RemoveItem(pair);
    assert other.IsEmpty() && other.CalculateTotalPriceWithoutDiscount() == 0.0;

    // Two items with equal fields are still two different entries.
    var a := new CartItem("same", 1.0, 1);
    var b := new CartItem("same", 1.0, 1);
    other.AddItem(a);
    other.AddItem(b);
    other.RemoveItem(b);
    assert other.items == [a];
    other.RemoveItem(b);
    assert other.items == [a];
  }
}
