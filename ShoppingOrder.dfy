/**
 * The `ShoppingOrder` entity of the outbox service: a primitive `long` id and
 * two nullable references, with getters and setters, an `equals` that
 * dereferences its own name and amount, and a `hashCode` over the same three
 * fields.
 */
module Orders {
  import opened JavaLang
  import opened Numbers

  /** What `equals(Object o)` can be handed: `null`, an order, or an object of another class. */
  datatype Other = Null | Order(that: ShoppingOrder) | OtherClass

  function Referent(o: Other): set<object>
  {
    if o.Order? then {o.that} else {}
  }

  class ShoppingOrder {
    var id: Long
    var name: Option<string>
    var amount: Option<Decimal>

    /** A new entity: `id` is `0`, `name` and `amount` are `null`. */
    constructor ()
      ensures id == 0 && name == None && amount == None
    {
      id, name, amount := 0, None, None;
    }

    function GetId(): Long reads this { id }
    function GetName(): Option<string> reads this { name }
    function GetAmount(): Option<Decimal> reads this { amount }

    method SetId(v: Long)
      modifies this`id
      ensures GetId() == v && name == old(name) && amount == old(amount)
    {
      id := v;
    }

    method SetName(v: Option<string>)
      modifies this`name
      ensures GetName() == v && id == old(id) && amount == old(amount)
    {
      name := v;
    }

    method SetAmount(v: Option<Decimal>)
      modifies this`amount
      ensures GetAmount() == v && id == old(id) && name == old(name)
    {
      amount := v;
    }

    /**
     * `equals`: `this.id == that.id && this.name.equals(that.name) &&
     * this.amount.equals(that.amount)`, after the identity, `null` and class
     * checks. A `null` name or amount on the receiver's side is dereferenced
     * and throws `NullPointerException` once the comparison reaches it.
     */
    function Equals(o: Other): (r: Result<bool, Throwable>)
      reads this, Referent(o)
      ensures o.Order? && o.that == this ==> r == Ok(true)
      ensures o.Null? || o.OtherClass? ==> r == Ok(false)
      ensures r == Ok(true) <==>
        (o.Order? && (o.that == this ||
          (id == o.that.id && name.Some? && name == o.that.name && amount.Some? && amount == o.that.amount)))
      ensures r.Err? <==>
        (o.Order? && o.that != this && id == o.that.id && (name.None? || (name == o.that.name && amount.None?)))
      ensures r.Err? ==> r.error == NullPointerException
    {
      if o.Order? && o.that == this then Ok(true)
      else if !o.Order? then Ok(false)
      else if id != o.that.id then Ok(false)
      else if name.None? then Err(NullPointerException)
      else if name != o.that.name then Ok(false)
      else if amount.None? then Err(NullPointerException)
      else Ok(amount == o.that.amount)
    }

    /** `Objects.hash(id, name, amount)`. */
    function HashCode(): Int
      reads this
    {
      ObjectsHash([LongHash(id), NullableHash(name, StringHash), NullableHash(amount, DecimalHash)])
    }
  }

  /** Between orders whose names and amounts are set, `equals` returns and is symmetric. */
  lemma EqualsSymmetric(a: ShoppingOrder, b: ShoppingOrder)
    requires a.name.Some? && a.amount.Some? && b.name.Some? && b.amount.Some?
    ensures a.Equals(Order(b)).Ok? && a.Equals(Order(b)) == b.Equals(Order(a))
  {
  }

  /**
   * A `null` name makes `equals` throw from that side only: compared from an
   * order with a `null` name, another order with the same id makes `equals`
   * throw, while the reverse comparison returns `false` when the other order
   * has a name.
   */
  lemma NullNameThrows(a: ShoppingOrder, b: ShoppingOrder)
    requires a != b && a.id == b.id && a.name.None?
    ensures a.Equals(Order(b)) == Err(NullPointerException)
    ensures b.name.Some? ==> b.Equals(Order(a)) == Ok(false)
  {
  }

  /** Equal orders have equal hash codes. */
  lemma HashCodeConsistent(a: ShoppingOrder, b: ShoppingOrder)
    requires a.Equals(Order(b)) == Ok(true)
    ensures a.HashCode() == b.HashCode()
  {
  }
}
