/** The shopping cart: an ordered list of lines, one per (product, size,
    colour) key, each with a unit price and a quantity.  Prices are whole
    currency units.  The functions here are the list transformations the
    shop applies; the `Storage` module applies them to the stored cart. */
module Cart {
  import opened Wrappers

  datatype CartLine = CartLine(
    id: string,
    name: string,
    price: nat,
    size: string,
    color: string,
    quantity: nat)

  /** The merge key of a line: product id, size and colour. */
  predicate HasKey(l: CartLine, id: string, size: string, color: string) {
    l.id == id && l.size == size && l.color == color
  }

  /** No two lines of the cart share a key. */
  predicate DistinctKeys(items: seq<CartLine>) {
    forall i, j :: 0 <= i < j < |items| ==> !HasKey(items[j], items[i].id, items[i].size, items[i].color)
  }

  /** Every line holds at least one unit. */
  predicate PositiveQuantities(items: seq<CartLine>) {
    forall i :: 0 <= i < |items| ==> items[i].quantity >= 1
  }

  /** `items.find(...)` on the key: the position of the first line with the
      key, if any. */
  function FindLine(items: seq<CartLine>, id: string, size: string, color: string): (r: Option<nat>)
    ensures r.Some? ==> r.value < |items| && HasKey(items[r.value], id, size, color)
    ensures r.Some? ==> forall j :: 0 <= j < r.value ==> !HasKey(items[j], id, size, color)
    ensures r.None? <==> forall j :: 0 <= j < |items| ==> !HasKey(items[j], id, size, color)
  {
    if items == [] then None
    else if HasKey(items[0], id, size, color) then Some(0)
    else match FindLine(items[1..], id, size, color)
      case None => None
      case Some(k) => Some(k + 1)
  }

  /** A line appended to a cart without its key is found at the end. */
  lemma {:induction false} FindAppended(items: seq<CartLine>, l: CartLine)
    requires FindLine(items, l.id, l.size, l.color).None?
    ensures FindLine(items + [l], l.id, l.size, l.color) == Some(|items|)
  {
    if items != [] {
      assert (items + [l])[1..] == items[1..] + [l];
      FindAppended(items[1..], l);
    }
  }

  /** `addToCart`: the first line with the key grows by `quantity`, or a new
      line with that quantity is appended at the end.  The merged line keeps
      its own name and price. */
  function AddItem(items: seq<CartLine>, id: string, name: string, price: nat,
                   size: string, color: string, quantity: nat): (r: seq<CartLine>)
    ensures FindLine(items, id, size, color).Some? ==>
              var k := FindLine(items, id, size, color).value;
              && |r| == |items|
              && r[k].quantity == items[k].quantity + quantity
              && r[k].(quantity := items[k].quantity) == items[k]
    ensures FindLine(items, id, size, color).None? ==>
              && |r| == |items| + 1
              && r[|items|] == CartLine(id, name, price, size, color, quantity)
    ensures forall j :: 0 <= j < |items| && FindLine(items, id, size, color) != Some(j) ==> r[j] == items[j]
    ensures FindLine(r, id, size, color).Some?
    ensures DistinctKeys(items) ==> DistinctKeys(r)
    ensures quantity >= 1 && PositiveQuantities(items) ==> PositiveQuantities(r)
  {
    match FindLine(items, id, size, color)
    case Some(k) => items[k := items[k].(quantity := items[k].quantity + quantity)]
    case None =>
      var line := CartLine(id, name, price, size, color, quantity);
      FindAppended(items, line);
      items + [line]
  }

  /** Adding one unit of a product twice yields one line with two units, not
      two lines. */
  lemma AddTwiceMerges(items: seq<CartLine>, id: string, name: string, price: nat,
                       size: string, color: string)
    requires FindLine(items, id, size, color).None?
    ensures AddItem(AddItem(items, id, name, price, size, color, 1), id, name, price, size, color, 1)
            == items + [CartLine(id, name, price, size, color, 2)]
  {
    var line := CartLine(id, name, price, size, color, 1);
    FindAppended(items, line);
  }

  /** The line at position `k` taken out, the others kept in order. */
  function RemoveAt(items: seq<CartLine>, k: nat): (r: seq<CartLine>)
    requires k < |items|
    ensures |r| == |items| - 1
    ensures forall j :: 0 <= j < k ==> r[j] == items[j]
    ensures forall j :: k <= j < |r| ==> r[j] == items[j + 1]
  {
    items[..k] + items[k + 1..]
  }

  /** `items.splice(index, 1)` for an integer index: a negative index counts
      from the end (and is clamped to 0), and an index at or past the end
      removes nothing. */
  function SpliceOne(items: seq<CartLine>, index: int): (r: seq<CartLine>)
    ensures |items| <= index ==> r == items
    ensures 0 <= index < |items| ==> r == RemoveAt(items, index)
    ensures -|items| <= index < 0 ==> r == RemoveAt(items, |items| + index)
    ensures index < -|items| && items != [] ==> r == RemoveAt(items, 0)
    ensures |r| == if items != [] && index < |items| then |items| - 1 else |items|
    ensures DistinctKeys(items) ==> DistinctKeys(r)
    ensures PositiveQuantities(items) ==> PositiveQuantities(r)
  {
    var start := if index < 0 then (if |items| + index < 0 then 0 else |items| + index) else index;
    if start < |items| then RemoveAtKeeps(items, start); RemoveAt(items, start) else items
  }

  /** Removing a line keeps keys distinct and quantities positive. */
  lemma RemoveAtKeeps(items: seq<CartLine>, k: nat)
    requires k < |items|
    ensures DistinctKeys(items) ==> DistinctKeys(RemoveAt(items, k))
    ensures PositiveQuantities(items) ==> PositiveQuantities(RemoveAt(items, k))
  {
    var r := RemoveAt(items, k);
    if DistinctKeys(items) {
      forall i, j | 0 <= i < j < |r|
        ensures !HasKey(r[j], r[i].id, r[i].size, r[i].color)
      {
        var i' := if i < k then i else i + 1;
        var j' := if j < k then j else j + 1;
        assert r[i] == items[i'] && r[j] == items[j'];
      }
    }
  }

  /** `updateCartItemQuantity(index, quantity)`: a positive quantity replaces
      the line's quantity, and fails (the JavaScript throws before saving)
      when there is no line at `index`; any other quantity deletes the line
      exactly as `removeFromCart` does. */
  function UpdateQuantity(items: seq<CartLine>, index: int, quantity: int): (r: Option<seq<CartLine>>)
    ensures r.None? <==> quantity > 0 && !(0 <= index < |items|)
    ensures quantity <= 0 ==> r == Some(SpliceOne(items, index))
    ensures quantity > 0 && r.Some? ==>
              && |r.value| == |items|
              && r.value[index].quantity == quantity
              && r.value[index].(quantity := items[index].quantity) == items[index]
              && forall j :: 0 <= j < |items| && j != index ==> r.value[j] == items[j]
    ensures r.Some? && DistinctKeys(items) ==> DistinctKeys(r.value)
    ensures r.Some? && PositiveQuantities(items) ==> PositiveQuantities(r.value)
  {
    if quantity > 0 then
      if 0 <= index < |items| then Some(items[index := items[index].(quantity := quantity)])
      else None
    else Some(SpliceOne(items, index))
  }

  /** A line's price times its quantity: at least the price once the line
      holds a unit, and zero only for a free or empty line. */
  function LineTotal(l: CartLine): (t: nat)
    ensures l.quantity >= 1 ==> t >= l.price
    ensures t == 0 <==> l.price == 0 || l.quantity == 0
  {
    l.price * l.quantity
  }

  /** `getCartTotal`: the sum of price times quantity over the lines, added
      up from the first line on. */
  function Total(items: seq<CartLine>): nat
  {
    if items == [] then 0 else Total(items[..|items| - 1]) + LineTotal(items[|items| - 1])
  }

  /** Every line's total is part of the cart total, and the cart total is
      zero exactly when every line's total is. */
  lemma {:induction false} TotalLines(items: seq<CartLine>)
    ensures forall k :: 0 <= k < |items| ==> LineTotal(items[k]) <= Total(items)
    ensures Total(items) == 0 <==> forall k :: 0 <= k < |items| ==> LineTotal(items[k]) == 0
  {
    if items != [] {
      var prefix := items[..|items| - 1];
      TotalLines(prefix);
      assert forall k :: 0 <= k < |prefix| ==> prefix[k] == items[k];
    }
  }

  /** The total of two carts put end to end is the sum of their totals. */
  lemma {:induction false} TotalAppend(s: seq<CartLine>, t: seq<CartLine>)
    ensures Total(s + t) == Total(s) + Total(t)
  {
    if t == [] {
      assert s + t == s;
    } else {
      var t' := t[..|t| - 1];
      assert (s + t)[..|s + t| - 1] == s + t';
      TotalAppend(s, t');
    }
  }

  /** The total splits around any line. */
  lemma TotalAround(items: seq<CartLine>, k: nat)
    requires k < |items|
    ensures Total(items) == Total(items[..k]) + LineTotal(items[k]) + Total(items[k + 1..])
  {
    var before := items[..k] + [items[k]];
    assert items == before + items[k + 1..];
    TotalAppend(before, items[k + 1..]);
    TotalPush(items[..k], items[k]);
  }

  /** Removing a line takes exactly its price times quantity off the total. */
  lemma TotalRemoveAt(items: seq<CartLine>, k: nat)
    requires k < |items|
    ensures Total(RemoveAt(items, k)) + LineTotal(items[k]) == Total(items)
  {
    TotalAround(items, k);
    TotalAppend(items[..k], items[k + 1..]);
  }

  /** Replacing one line changes the total by the difference of the two lines. */
  lemma TotalReplace(items: seq<CartLine>, k: nat, l: CartLine)
    requires k < |items|
    ensures Total(items[k := l]) + LineTotal(items[k]) == Total(items) + LineTotal(l)
  {
    var r := items[k := l];
    TotalAround(items, k);
    TotalAround(r, k);
    assert r[..k] == items[..k] && r[k + 1..] == items[k + 1..];
  }

  /** The price of the line that `quantity` more units of the key land on:
      the existing line's when there is one, the given price otherwise. */
  function LandingPrice(items: seq<CartLine>, id: string, price: nat, size: string, color: string): nat {
    match FindLine(items, id, size, color)
    case Some(k) => items[k].price
    case None => price
  }

  /** Growing a line by `quantity` units raises the total by its price
      times `quantity`. */
  lemma TotalGrowLine(items: seq<CartLine>, k: nat, quantity: nat)
    requires k < |items|
    ensures Total(items[k := items[k].(quantity := items[k].quantity + quantity)])
            == Total(items) + items[k].price * quantity
  {
    var l := items[k];
    TotalReplace(items, k, l.(quantity := l.quantity + quantity));
    MulAdd(l.price, l.quantity, quantity);
  }

  /** Appending a line adds its price times quantity to the total. */
  lemma TotalPush(items: seq<CartLine>, l: CartLine)
    ensures Total(items + [l]) == Total(items) + LineTotal(l)
  {
    TotalAppend(items, [l]);
    assert [l][..0] == [];
  }

  /** Adding `quantity` units raises the total by `quantity` times the price
      of the line they land on (the existing line's price when merging). */
  lemma TotalAddItem(items: seq<CartLine>, id: string, name: string, price: nat,
                     size: string, color: string, quantity: nat)
    ensures Total(AddItem(items, id, name, price, size, color, quantity))
            == Total(items) + LandingPrice(items, id, price, size, color) * quantity
  {
    var r := AddItem(items, id, name, price, size, color, quantity);
    match FindLine(items, id, size, color)
    case Some(k) =>
      assert r == items[k := items[k].(quantity := items[k].quantity + quantity)];
      TotalGrowLine(items, k, quantity);
    case None =>
      var line := CartLine(id, name, price, size, color, quantity);
      assert r == items + [line];
      TotalPush(items, line);
  }

  lemma MulAdd(p: nat, a: nat, b: nat)
    ensures p * (a + b) == p * a + p * b
  {
  }

  /** Changing a line's quantity to a positive `q` moves the total by the
      price times the change in quantity. */
  lemma TotalUpdateQuantity(items: seq<CartLine>, index: nat, q: nat)
    requires index < |items| && q > 0
    ensures var r := UpdateQuantity(items, index, q).value;
            Total(r) + LineTotal(items[index]) == Total(items) + items[index].price * q
  {
    TotalReplace(items, index, items[index].(quantity := q));
  }
}
