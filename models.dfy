/**
  The order aggregate (header, delivery, payment, items) and the acceptance
  predicate that its `validate` struct tags define (intrenal/models/model.go).
 */
module Models {

  /** An instant, in nanoseconds counted from Go's zero `time.Time`. */
  type Time = int

  /** The zero `time.Time`, which the `required` tag rejects. */
  const ZeroTime: Time := 0

  datatype Delivery = Delivery(
    name: string,
    phone: string,
    zip: string,
    city: string,
    address: string,
    region: string,
    email: string)

  datatype Payment = Payment(
    transaction: string,
    requestId: string,
    currency: string,
    provider: string,
    amount: int,
    paymentDt: int,
    bank: string,
    deliveryCost: int,
    goodsTotal: int,
    customFee: int)

  datatype Item = Item(
    chrtId: int,
    trackNumber: string,
    price: int,
    rid: string,
    name: string,
    sale: int,
    size: string,
    totalPrice: int,
    nmId: int,
    brand: string,
    status: int)

  datatype Order = Order(
    orderUid: string,
    trackNumber: string,
    entry: string,
    delivery: Delivery,
    payment: Payment,
    items: seq<Item>,
    locale: string,
    internalSignature: string,
    customerId: string,
    deliveryService: string,
    shardKey: string,
    smId: int,
    dateCreated: Time,
    oofShard: string)

  /** The zero values `model.Delivery{}` and `model.Payment{}`. */
  const EmptyDelivery := Delivery("", "", "", "", "", "", "")
  const EmptyPayment := Payment("", "", "", "", 0, 0, "", 0, 0, 0)

  /**
    The `e164` and `email` format checks belong to the validation library and
    are not part of this model; they are supplied as predicates on strings.
   */
  datatype FormatRules = FormatRules(isE164: string -> bool, isEmail: string -> bool)

  /** `required` on a string: not the empty string. */
  predicate Present(s: string) {
    s != ""
  }

  predicate ValidDelivery(d: Delivery, rules: FormatRules) {
    && Present(d.name)
    && Present(d.phone) && rules.isE164(d.phone)
    && Present(d.city)
    && Present(d.address)
    && Present(d.email) && rules.isEmail(d.email)
  }

  /** `len=3` counts characters (runes), which is what `|s|` counts for a Dafny string. */
  predicate ValidPayment(p: Payment) {
    && Present(p.transaction)
    && Present(p.currency) && |p.currency| == 3
    && Present(p.provider)
    && p.amount > 0
    && Present(p.bank)
    && p.deliveryCost >= 0
    && p.goodsTotal >= 0
    && p.customFee >= 0
  }

  /** `required` on an int is "non-zero": negative catalogue ids pass. */
  predicate ValidItem(it: Item) {
    && it.chrtId != 0
    && Present(it.trackNumber)
    && it.price > 0
    && Present(it.rid)
    && Present(it.name)
    && it.sale >= 0
    && it.totalPrice > 0
    && it.nmId != 0
    && Present(it.brand)
  }

  /**
    Struct validation of an order. The `required` tag on the Delivery and
    Payment fields adds nothing: the validator descends into both structs,
    and their zero values already fail the `required` name and transaction.
   */
  predicate Valid(o: Order, rules: FormatRules) {
    && Present(o.orderUid)
    && Present(o.trackNumber)
    && Present(o.entry)
    && ValidDelivery(o.delivery, rules)
    && ValidPayment(o.payment)
    && |o.items| >= 1
    && (forall i | 0 <= i < |o.items| :: ValidItem(o.items[i]))
    && Present(o.locale)
    && Present(o.customerId)
    && Present(o.deliveryService)
    && o.dateCreated != ZeroTime
  }

  /** What an accepted order is guaranteed to carry. */
  lemma AcceptedOrderShape(o: Order, rules: FormatRules)
    requires Valid(o, rules)
    ensures o.orderUid != "" && o.trackNumber != "" && o.entry != "" && o.locale != ""
    ensures o.customerId != "" && o.deliveryService != "" && o.dateCreated != ZeroTime
    ensures o.delivery.name != "" && o.delivery.city != "" && o.delivery.address != ""
    ensures o.delivery.phone != "" && rules.isE164(o.delivery.phone)
    ensures o.delivery.email != "" && rules.isEmail(o.delivery.email)
    ensures o.payment.transaction != "" && o.payment.provider != "" && o.payment.bank != ""
    ensures |o.payment.currency| == 3 && o.payment.amount > 0
    ensures o.payment.deliveryCost >= 0 && o.payment.goodsTotal >= 0 && o.payment.customFee >= 0
    ensures |o.items| >= 1
    ensures forall it | it in o.items ::
      it.price > 0 && it.totalPrice > 0 && it.sale >= 0 && it.chrtId != 0 && it.nmId != 0
      && it.trackNumber != "" && it.rid != "" && it.name != "" && it.brand != ""
  {
  }

  /** `dive`: a single bad item, anywhere in the list, rejects the whole order. */
  lemma {:induction false} OneBadItemRejects(o: Order, rules: FormatRules, k: nat)
    requires k < |o.items| && !ValidItem(o.items[k])
    ensures !Valid(o, rules)
  {
  }

  /**
    The untagged fields carry no constraint: rewriting any of them never
    changes the verdict, in either direction.
   */
  lemma UntaggedFieldsAreFree(o: Order, rules: FormatRules, sig: string, shard: string, sm: int,
                              oof: string, zip: string, region: string, req: string, dt: int)
    ensures var o' := o.(internalSignature := sig, shardKey := shard, smId := sm, oofShard := oof,
                         delivery := o.delivery.(zip := zip, region := region),
                         payment := o.payment.(requestId := req, paymentDt := dt));
            Valid(o', rules) <==> Valid(o, rules)
  {
  }

  /** An item's `size` and `status` are likewise free. */
  lemma UntaggedItemFieldsAreFree(it: Item, size: string, status: int)
    ensures ValidItem(it.(size := size, status := status)) <==> ValidItem(it)
  {
  }

  /** Only the length of the currency code is checked, never its membership in a list. */
  lemma CurrencyLengthOnly(o: Order, rules: FormatRules, code: string)
    requires Valid(o, rules)
    ensures Valid(o.(payment := o.payment.(currency := code)), rules) <==> |code| == 3
  {
  }

  /**
    The ingestion loop's emptiness gate is implied by validation: an accepted
    order never has a zero Delivery, a zero Payment or an empty item list.
   */
  lemma ZeroGateImpliedByValidation(o: Order, rules: FormatRules)
    requires Valid(o, rules)
    ensures o.delivery != EmptyDelivery && o.payment != EmptyPayment && |o.items| != 0
  {
  }
}
