/** The order page's summary (`OrderScreen.jsx`): the items, shipping, tax
    and total it derives from the order the server sent. Numbers follow
    `JsNumber`; the markup around the figures is not part of this model. */
module OrderScreen {
  import opened Wrappers
  import opened Text
  import opened Json
  import opened JsNumber
  import Models
  import Serializers

  // ---------------------------------------------------------------------
  // One order line
  // ---------------------------------------------------------------------

  /** `Number(item.price) || 0`: the unit price a line shows. */
  function UnitPrice(item: Json): (r: Num)
    ensures r.Num?
    ensures !NumTruthy(NumberOf(Get(item, "price"))) ==> r == NumZero
  {
    OrZero(NumberOf(Get(item, "price")))
  }

  /** `item.qty || 0`, as the multiplication reads it. */
  function Quantity(item: Json): Num {
    NumberOrZero(Get(item, "qty"))
  }

  /** The line total the item list shows. */
  function LineTotal(item: Json): Num {
    Times(UnitPrice(item), Quantity(item))
  }

  /** The summary's term for a line as the source writes it:
      `Number(item.price || 0) * (item.qty || 0)`. */
  function LineTermAsWritten(item: Json): Num {
    Times(NumberOrZero(Get(item, "price")), Quantity(item))
  }

  // ---------------------------------------------------------------------
  // The summary
  // ---------------------------------------------------------------------

  /** No line is `null`: reading `item.price` of a `null` line throws,
      both in the summary's `reduce` and in the item list. */
  predicate NoNullLines(items: seq<Json>) {
    forall i | 0 <= i < |items| :: !items[i].JNull?
  }

  /** `order.orderItems ? order.orderItems.reduce(...) : 0` with the given
      term: `None` where the expression throws, that is when `orderItems`
      is truthy but not an array (`reduce` is not a function) or holds a
      `null` line. */
  function ItemsPriceWith(order: Json, term: Json -> Num): (r: Option<Num>)
    ensures !Truthy(Get(order, "orderItems")) ==> r == Some(NumZero)
    ensures Get(order, "orderItems") == Some(JArr([])) ==> r == Some(NumZero)
    ensures r.None? <==> var v := Get(order, "orderItems");
      Truthy(v) && !(v.value.JArr? && NoNullLines(v.value.items))
  {
    var v := Get(order, "orderItems");
    if !Truthy(v) then Some(NumZero)
    else if v.value.JArr? && NoNullLines(v.value.items) then Some(Sum(v.value.items, term))
    else None
  }

  /** The items figure with each line counted as the item list shows it. */
  function ItemsPrice(order: Json): Option<Num> {
    ItemsPriceWith(order, LineTotal)
  }

  /** The items figure as the source computes it. */
  function ItemsPriceAsWritten(order: Json): Option<Num> {
    ItemsPriceWith(order, LineTermAsWritten)
  }

  /** `typeof v === 'number' ? v : 0`, as the source reads shipping and
      tax. */
  function NumberFieldAsWritten(v: Option<Json>): (r: Num)
    ensures v.None? || !v.value.JNum? ==> r == NumZero
  {
    if v.Some? && v.value.JNum? then NumberOf(v) else NumZero
  }

  /** `Number(v) || 0`: the same reading the item lines use. */
  function NumberField(v: Option<Json>): (r: Num)
    ensures r.Num?
  {
    OrZero(NumberOf(v))
  }

  /** The item list reads `order.orderItems.length` and then maps over the
      lines: a falsy `orderItems` other than "" (missing, `null`, 0 or
      `false`) throws there, while "" shows "Order is empty". */
  predicate ListRenders(order: Json) {
    var v := Get(order, "orderItems");
    Truthy(v) || v == Some(JStr(""))
  }

  /** What the page shows: nothing for a missing order, a thrown error when
      the summary or the item list throws, else the four figures. */
  datatype View = Nothing | Throws | Shows(items: Num, shipping: Num, tax: Num, total: Num)

  function ViewWith(order: Option<Json>, items: Json -> Option<Num>, field: Option<Json> -> Num): (r: View)
    ensures r == Nothing <==> !Truthy(order)
    ensures r == Throws <==> Truthy(order) && (items(order.value).None? || !ListRenders(order.value))
    ensures r.Shows? ==> r.total == Plus(Plus(r.items, r.shipping), r.tax)
  {
    if !Truthy(order) then Nothing
    else if !ListRenders(order.value) then Throws
    else
      match items(order.value)
      case None => Throws
      case Some(i) =>
        var shipping := field(Get(order.value, "shippingPrice"));
        var tax := field(Get(order.value, "taxPrice"));
        Shows(i, shipping, tax, Plus(Plus(i, shipping), tax))
  }

  /** The summary as the source computes it. */
  function ViewAsWritten(order: Option<Json>): View {
    ViewWith(order, ItemsPriceAsWritten, NumberFieldAsWritten)
  }

  /** The summary with both readings corrected. */
  function OrderView(order: Option<Json>): View {
    ViewWith(order, ItemsPrice, NumberField)
  }

  // ---------------------------------------------------------------------
  // What the summary promises
  // ---------------------------------------------------------------------

  /** A line with no usable price (missing, not a number, or 0) or with no
      quantity counts 0. */
  lemma ZeroLines(item: Json)
    ensures !NumTruthy(NumberOf(Get(item, "price"))) && Quantity(item).Num? ==> LineTotal(item) == NumZero
    ensures !Truthy(Get(item, "qty")) ==> LineTotal(item) == NumZero
  {
  }

  /** When every quantity reads as a number, the items figure is a number:
      no price can make it `NaN`. */
  lemma ItemsPriceIsNumber(order: Json, items: seq<Json>)
    requires Get(order, "orderItems") == Some(JArr(items))
    requires forall i | 0 <= i < |items| :: Quantity(items[i]).Num?
    ensures ItemsPrice(order).Some? <==> NoNullLines(items)
    ensures ItemsPrice(order).Some? ==> ItemsPrice(order).value.Num?
  {
    assert forall i | 0 <= i < |items| :: LineTotal(items[i]).Num?;
  }

  /** The items figure over two lists of lines is the sum of the figures of
      the two lists. */
  lemma ItemsPriceAppend(a: seq<Json>, b: seq<Json>)
    ensures ItemsPrice(JObj([Member("orderItems", JArr(a + b))]))
      == if NoNullLines(a) && NoNullLines(b) then Some(Plus(Sum(a, LineTotal), Sum(b, LineTotal))) else None
  {
    var o := JObj([Member("orderItems", JArr(a + b))]);
    assert Get(o, "orderItems") == Some(JArr(a + b));
    NoNullAppend(a, b);
    if NoNullLines(a) && NoNullLines(b) {
      SumAppend(a, b, LineTotal);
    }
  }

  lemma NoNullAppend(a: seq<Json>, b: seq<Json>)
    ensures NoNullLines(a + b) <==> NoNullLines(a) && NoNullLines(b)
  {
    if NoNullLines(a + b) {
      forall i | 0 <= i < |a| ensures !a[i].JNull? {
        assert (a + b)[i] == a[i];
      }
      forall i | 0 <= i < |b| ensures !b[i].JNull? {
        assert (a + b)[|a| + i] == b[i];
      }
    }
  }

  /** The line's price is missing, or reads as a number that is falsy
      whenever the price is (JavaScript guarantees the latter for every
      value; over number literals the model states it here). */
  predicate PriceReads(item: Json) {
    var p := Get(item, "price");
    p.None? || (NumberOf(p).Num? && (!Truthy(p) ==> !NumTruthy(NumberOf(p))))
  }

  /** Every line of the order has a price that reads. */
  predicate PricesRead(order: Json) {
    match Get(order, "orderItems")
    case Some(JArr(items)) => forall i | 0 <= i < |items| :: PriceReads(items[i])
    case _ => true
  }

  /** Such a line counts the same in both readings. */
  lemma LineAgrees(item: Json)
    requires PriceReads(item)
    ensures LineTermAsWritten(item) == LineTotal(item)
  {
  }

  /** The source's items figure is the corrected one as long as every
      price reads. */
  lemma ItemsPriceAgrees(order: Json)
    requires PricesRead(order)
    ensures ItemsPriceAsWritten(order) == ItemsPrice(order)
  {
    var v := Get(order, "orderItems");
    if v.Some? && v.value.JArr? {
      var items := v.value.items;
      forall i | 0 <= i < |items| ensures LineTermAsWritten(items[i]) == LineTotal(items[i]) {
        LineAgrees(items[i]);
      }
      SumSameTerms(items, LineTermAsWritten, LineTotal);
    }
  }

  // ---------------------------------------------------------------------
  // A price that does not read poisons the source's items figure
  // ---------------------------------------------------------------------

  /** One line with a truthy price that is not a number makes the source's
      items figure, and so its total, `NaN`, while the item list shows that
      line as 0 and the corrected figure counts it 0. */
  lemma NonNumericPricePoisons(order: Json, items: seq<Json>, k: nat)
    requires Get(order, "orderItems") == Some(JArr(items))
    requires k < |items| && Truthy(Get(items[k], "price")) && NumberOf(Get(items[k], "price")) == NaN
    ensures ItemsPriceAsWritten(order) == if NoNullLines(items) then Some(NaN) else None
    ensures NoNullLines(items) ==> ViewAsWritten(Some(order)).Shows? && ViewAsWritten(Some(order)).total == NaN
    ensures Quantity(items[k]).Num? ==> LineTotal(items[k]) == NumZero
  {
    assert LineTermAsWritten(items[k]) == NaN;
  }

  /** The line `{price: "abc", qty: 1}`. */
  function PriceTextItem(): Json {
    JObj([Member("price", JStr("abc")), Member("qty", JNum("1"))])
  }

  /** The order `{orderItems: [{price: "abc", qty: 1}]}`. */
  function PriceTextOrder(): Json {
    JObj([Member("orderItems", JArr([PriceTextItem()]))])
  }

  /** The line's price does not read and its quantity is 1. */
  lemma PriceTextLine()
    ensures NumberOf(Get(PriceTextItem(), "price")) == NaN
    ensures Quantity(PriceTextItem()) == Num(1.0)
  {
    NotANumber("abc");
    assert Get(PriceTextItem(), "qty") == Some(JNum("1"));
    assert NumberOrZero(Some(JNum("1"))) == Num(1.0) by {
      assert ShowInt(1) == "1";
      IntNumber(1);
    }
  }

  /** On that order the source shows `NaN` for the total. */
  lemma PriceTextAsWritten()
    ensures ViewAsWritten(Some(PriceTextOrder())).total == NaN
  {
    PriceTextLine();
    assert NoNullLines([PriceTextItem()]);
    NonNumericPricePoisons(PriceTextOrder(), [PriceTextItem()], 0);
  }

  /** The corrected summary shows 0 for every figure of that order. */
  lemma PriceTextCorrected()
    ensures OrderView(Some(PriceTextOrder())) == Shows(NumZero, NumZero, NumZero, NumZero)
  {
    var order := PriceTextOrder();
    PriceTextItems();
    assert Get(order, "shippingPrice") == None && Get(order, "taxPrice") == None;
    assert NoNullLines([PriceTextItem()]);
    ShownFields(order);
  }

  lemma PriceTextItems()
    ensures ItemsPrice(PriceTextOrder()) == Some(NumZero)
  {
    var item := PriceTextItem();
    assert Get(PriceTextOrder(), "orderItems") == Some(JArr([item]));
    assert !item.JNull?;
    SingleLine(PriceTextOrder(), item);
    PriceTextLine();
    assert UnitPrice(item) == NumZero;
  }

  /** An order of one line has that line's total as its items figure. */
  lemma SingleLine(order: Json, item: Json)
    requires Get(order, "orderItems") == Some(JArr([item]))
    ensures ItemsPrice(order) == if item.JNull? then None else Some(LineTotal(item))
  {
    if item.JNull? {
      assert !NoNullLines([item]);
      return;
    }
    assert ItemsPrice(order) == Some(Sum([item], LineTotal));
    assert [item][..0] == [];
    assert Sum([item], LineTotal) == Plus(NumZero, LineTotal(item));
  }

  // ---------------------------------------------------------------------
  // Shipping and tax as the server sends them
  // ---------------------------------------------------------------------

  /** A string of digits, a point and two more digits reads as its value. */
  lemma UnsignedCents(q: nat, f: nat)
    requires f < 100
    ensures UnsignedValue(ShowNat(q) + "." + [DigitChar(f / 10), DigitChar(f % 10)])
      == Some(q as real + f as real / 100.0)
  {
    var a, b := f / 10, f % 10;
    FractionValue(ShowNat(q), [DigitChar(a), DigitChar(b)]);
    ShowNatValue(q);
    CentsFraction(q, a, b);
    assert 10 * a + b == f;
  }

  /** Two fraction digits add hundredths. */
  lemma CentsFraction(q: nat, a: nat, b: nat)
    requires a < 10 && b < 10
    ensures WithFraction(q as real, [DigitChar(a), DigitChar(b)]) == q as real + (10 * a + b) as real / 100.0
  {
    TwoDigits(a, b);
    assert Pow10(2) == 100.0;
  }

  lemma TwoDigits(a: nat, b: nat)
    requires a < 10 && b < 10
    ensures DigitsValue([DigitChar(a), DigitChar(b)]) == 10 * a + b
  {
    var fr := [DigitChar(a), DigitChar(b)];
    assert fr[..1] == [DigitChar(a)];
    assert [DigitChar(a)][..0] == [];
    assert DigitsValue([DigitChar(a)]) == a;
    assert DigitsValue(fr) == 10 * DigitsValue(fr[..1]) + b;
  }

  /** An amount in paise, as a number of rupees. */
  function Amount(c: Models.Cents): Num {
    Num(c as real / 100.0)
  }

  /** The unsigned part of a rendered amount reads as its value. */
  lemma CentsUnsigned(m: nat)
    ensures UnsignedValue(Serializers.CentsText(m)) == Some(m as real / 100.0)
  {
    UnsignedCents(m / 100, m % 100);
    assert (m / 100) as real + (m % 100) as real / 100.0 == m as real / 100.0 by {
      assert m == 100 * (m / 100) + m % 100;
    }
  }

  /** A rendered amount is a decimal literal of the amount. */
  lemma CentsDecimal(c: Models.Cents)
    ensures DecimalValue(Serializers.ShowCents(c)) == Some(c as real / 100.0)
  {
    var m := if c < 0 then -c else c;
    CentsUnsigned(m);
    SignedValue(Serializers.CentsText(m), m as real / 100.0);
  }

  /** `Number` reads a rendered amount back as the amount. */
  lemma CentsValue(c: Models.Cents)
    ensures StringToNumber(Serializers.ShowCents(c)) == Num(c as real / 100.0)
  {
    var s := Serializers.ShowCents(c);
    CentsEnds(c);
    CentsDecimal(c);
    PlainNumber(s, c as real / 100.0);
  }

  /** A rendered amount starts with a sign or a digit and ends with a
      digit, so there is no whitespace to trim. */
  lemma CentsEnds(c: Models.Cents)
    ensures var s := Serializers.ShowCents(c);
      s != [] && !IsJsSpace(s[0]) && !IsJsSpace(s[|s| - 1])
  {
    var s := Serializers.ShowCents(c);
    var m := if c < 0 then -c else c;
    var t := Serializers.CentsText(m);
    if c < 0 {
      assert s == "-" + t;
      assert s[|s| - 1] == t[|t| - 1];
    } else {
      assert s == t;
    }
  }

  /** As the source reads them, an order from the server always shows
      shipping and tax as 0 and a total of the items alone: the server
      sends those prices as strings, never as numbers. */
  lemma ServerPricesHidden(db: Models.Db, id: nat)
    requires id in db.orders
    ensures var v := ViewAsWritten(Some(Serializers.SerializeOrder(db, id)));
      v.Shows? && v.shipping == NumZero && v.tax == NumZero && v.total == Plus(v.items, NumZero)
  {
    var r := Serializers.SerializeOrder(db, id);
    Serializers.OrderPrices(db, id);
    ServedLinesPresent(db, id);
    WrittenFields(r);
    var v := ViewAsWritten(Some(r));
    assert v.shipping == NumZero && v.tax == NumZero;
    assert Plus(Plus(v.items, NumZero), NumZero) == Plus(v.items, NumZero);
  }

  /** As the source reads them, an order whose lines are an array shows
      the figures its own fields give, unless a line is `null`. */
  lemma WrittenFields(order: Json)
    requires Get(order, "orderItems").Some? && Get(order, "orderItems").value.JArr?
    ensures NoNullLines(Get(order, "orderItems").value.items) <==> ViewAsWritten(Some(order)).Shows?
    ensures var v := ViewAsWritten(Some(order));
      v.Shows? ==>
        (ItemsPriceAsWritten(order) == Some(v.items)
         && v.shipping == NumberFieldAsWritten(Get(order, "shippingPrice"))
         && v.tax == NumberFieldAsWritten(Get(order, "taxPrice")))
  {
  }

  /** Read with `Number(...) || 0` like the item lines, the same order shows
      the shipping and tax the database holds. */
  lemma ServerPricesShown(db: Models.Db, id: nat)
    requires id in db.orders
    ensures var v := OrderView(Some(Serializers.SerializeOrder(db, id)));
      var o := db.orders[id];
      v.Shows? && v.shipping == Amount(o.shippingPrice) && v.tax == Amount(o.taxPrice)
  {
    var r := Serializers.SerializeOrder(db, id);
    var o := db.orders[id];
    Serializers.OrderPrices(db, id);
    ServedLinesPresent(db, id);
    ShownFields(r);
    CentsField(o.shippingPrice);
    CentsField(o.taxPrice);
  }

  /** An order whose lines are an array shows the figures its own
      fields give, unless a line is `null`. */
  lemma ShownFields(order: Json)
    requires Get(order, "orderItems").Some? && Get(order, "orderItems").value.JArr?
    ensures NoNullLines(Get(order, "orderItems").value.items) <==> OrderView(Some(order)).Shows?
    ensures var v := OrderView(Some(order));
      v.Shows? ==>
        (ItemsPrice(order) == Some(v.items)
         && v.shipping == NumberField(Get(order, "shippingPrice"))
         && v.tax == NumberField(Get(order, "taxPrice")))
  {
  }

  lemma CentsField(c: Models.Cents)
    ensures NumberField(Some(JStr(Serializers.ShowCents(c)))) == Amount(c)
  {
    CentsValue(c);
  }

  /** The total shown never reads the stored `totalPrice`: adding one to
      the order (it is read last) changes nothing on the page. */
  lemma TotalIgnoresStored(ms: seq<Member>, stored: Json)
    ensures OrderView(Some(JObj(ms + [Member("totalPrice", stored)]))) == OrderView(Some(JObj(ms)))
    ensures ViewAsWritten(Some(JObj(ms + [Member("totalPrice", stored)]))) == ViewAsWritten(Some(JObj(ms)))
  {
    var ext := ms + [Member("totalPrice", stored)];
    assert ext[..|ext| - 1] == ms;
    assert Get(JObj(ext), "orderItems") == Get(JObj(ms), "orderItems");
    assert Get(JObj(ext), "shippingPrice") == Get(JObj(ms), "shippingPrice");
    assert Get(JObj(ext), "taxPrice") == Get(JObj(ms), "taxPrice");
    SameFieldsSameView(JObj(ext), JObj(ms));
  }

  /** The page reads only `orderItems`, `shippingPrice` and `taxPrice`. */
  lemma SameFieldsSameView(a: Json, b: Json)
    requires a.JObj? && b.JObj?
    requires Get(a, "orderItems") == Get(b, "orderItems")
    requires Get(a, "shippingPrice") == Get(b, "shippingPrice")
    requires Get(a, "taxPrice") == Get(b, "taxPrice")
    ensures OrderView(Some(a)) == OrderView(Some(b))
    ensures ViewAsWritten(Some(a)) == ViewAsWritten(Some(b))
  {
    assert ItemsPrice(a) == ItemsPrice(b);
    assert ItemsPriceAsWritten(a) == ItemsPriceAsWritten(b);
  }

  // ---------------------------------------------------------------------
  // The lines as the server sends them
  // ---------------------------------------------------------------------

  /** Σ price × qty over the given lines, in rupees, summed in order. */
  function LinesTotal(db: Models.Db, ids: seq<nat>): (r: Num)
    requires forall i | 0 <= i < |ids| :: ids[i] in db.items
    ensures r.Num?
  {
    if ids == [] then NumZero
    else
      var it := db.items[ids[|ids| - 1]];
      Plus(LinesTotal(db, ids[..|ids| - 1]), Times(Amount(it.price), Num(it.qty as real)))
  }

  /** A line the server sends shows its price times its quantity, and its
      price reads. */
  lemma ServedLine(id: nat, it: Models.OrderItem)
    ensures LineTotal(Serializers.SerializeItem(id, it)) == Times(Amount(it.price), Num(it.qty as real))
    ensures PriceReads(Serializers.SerializeItem(id, it))
  {
    Serializers.ItemPrice(id, it);
    PricedLine(Serializers.SerializeItem(id, it), it.price, it.qty);
  }

  /** A line priced with a rendered amount and counted with an integer. */
  lemma PricedLine(item: Json, c: Models.Cents, q: int)
    requires Get(item, "price") == Some(JStr(Serializers.ShowCents(c)))
    requires Get(item, "qty") == Some(JNum(ShowInt(q)))
    ensures LineTotal(item) == Times(Amount(c), Num(q as real))
    ensures PriceReads(item)
  {
    CentsValue(c);
    IntNumber(q);
    assert UnitPrice(item) == Amount(c);
    assert Quantity(item) == Num(q as real);
  }

  lemma {:induction false} ServedTotal(db: Models.Db, ids: seq<nat>)
    requires forall i | 0 <= i < |ids| :: ids[i] in db.items
    ensures Sum(Serializers.SerializeItems(db, ids), LineTotal) == LinesTotal(db, ids)
  {
    if ids != [] {
      var init := ids[..|ids| - 1];
      var last := ids[|ids| - 1];
      var served := Serializers.SerializeItems(db, ids);
      assert served[..|served| - 1] == Serializers.SerializeItems(db, init);
      ServedTotal(db, init);
      ServedLine(last, db.items[last]);
    }
  }

  /** The server sends the lines of an order as an array of objects, so
      no line is `null`. */
  lemma ServedLinesPresent(db: Models.Db, id: nat)
    requires id in db.orders
    ensures var v := Get(Serializers.SerializeOrder(db, id), "orderItems");
      v.Some? && v.value.JArr? && NoNullLines(v.value.items)
  {
    var ids := Serializers.ItemsOf(db, id);
    var served := Serializers.SerializeItems(db, ids);
    forall i | 0 <= i < |served| ensures !served[i].JNull? {
      assert served[i] == Serializers.SerializeItem(ids[i], db.items[ids[i]]);
    }
    assert Get(Serializers.SerializeOrder(db, id), "orderItems") == Some(JArr(served));
  }

  /** For an order the server sends, the items figure is Σ price × qty over
      its lines, and the source's own reading of it agrees. */
  lemma ServerItemsPrice(db: Models.Db, id: nat)
    requires id in db.orders
    ensures var r := Serializers.SerializeOrder(db, id);
      ItemsPrice(r) == Some(LinesTotal(db, Serializers.ItemsOf(db, id)))
      && ItemsPriceAsWritten(r) == ItemsPrice(r)
  {
    var r := Serializers.SerializeOrder(db, id);
    var ids := Serializers.ItemsOf(db, id);
    var served := Serializers.SerializeItems(db, ids);
    ServedTotal(db, ids);
    ServedLinesPresent(db, id);
    forall i | 0 <= i < |served| ensures PriceReads(served[i]) {
      ServedLine(ids[i], db.items[ids[i]]);
    }
    ItemsPriceAgrees(r);
  }
}
