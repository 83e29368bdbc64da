/**
 * The `CreditCardTransaction` bean that the normalizer produces: five
 * nullable properties with getters and setters, a field-wise `equals` and a
 * `hashCode` over the same five fields.
 */
module Transactions {
  import opened JavaLang
  import opened Numbers

  /**
   * The values of the five properties; `None` is `null`. The transaction
   * date is a `java.util.Date`, represented by its epoch milliseconds.
   */
  datatype TransactionFields = TransactionFields(
    id: Option<Long>,
    cardNumber: Option<string>,
    transactionDate: Option<Long>,
    amount: Option<Decimal>,
    merchant: Option<string>)

  /** What `equals(Object o)` can be handed: `null`, a transaction, or an object of another class. */
  datatype Other = Null | Transaction(that: CreditCardTransaction) | OtherClass

  function Referent(o: Other): set<object>
  {
    if o.Transaction? then {o.that} else {}
  }

  /** `Objects.hash(id, cardNumber, transactionDate, amount, merchant)`; `Date.hashCode` equals `Long.hashCode` of its milliseconds. */
  function FieldsHash(f: TransactionFields): Int
  {
    ObjectsHash([
      NullableHash(f.id, LongHash),
      NullableHash(f.cardNumber, StringHash),
      NullableHash(f.transactionDate, LongHash),
      NullableHash(f.amount, DecimalHash),
      NullableHash(f.merchant, StringHash)])
  }

  class CreditCardTransaction {
    var id: Option<Long>
    var cardNumber: Option<string>
    var transactionDate: Option<Long>
    var amount: Option<Decimal>
    var merchant: Option<string>

    /** A new bean has every property `null`. */
    constructor ()
      ensures Fields() == TransactionFields(None, None, None, None, None)
    {
      id, cardNumber, transactionDate, amount, merchant := None, None, None, None, None;
    }

    function Fields(): TransactionFields
      reads this
    {
      TransactionFields(id, cardNumber, transactionDate, amount, merchant)
    }

    function GetId(): Option<Long> reads this { id }
    function GetCardNumber(): Option<string> reads this { cardNumber }
    function GetTransactionDate(): Option<Long> reads this { transactionDate }
    function GetAmount(): Option<Decimal> reads this { amount }
    function GetMerchant(): Option<string> reads this { merchant }

    method SetId(v: Option<Long>)
      modifies this`id
      ensures GetId() == v
      ensures Fields() == old(Fields()).(id := v)
    {
      id := v;
    }

    method SetCardNumber(v: Option<string>)
      modifies this`cardNumber
      ensures GetCardNumber() == v
      ensures Fields() == old(Fields()).(cardNumber := v)
    {
      cardNumber := v;
    }

    method SetTransactionDate(v: Option<Long>)
      modifies this`transactionDate
      ensures GetTransactionDate() == v
      ensures Fields() == old(Fields()).(transactionDate := v)
    {
      transactionDate := v;
    }

    method SetAmount(v: Option<Decimal>)
      modifies this`amount
      ensures GetAmount() == v
      ensures Fields() == old(Fields()).(amount := v)
    {
      amount := v;
    }

    method SetMerchant(v: Option<string>)
      modifies this`merchant
      ensures GetMerchant() == v
      ensures Fields() == old(Fields()).(merchant := v)
    {
      merchant := v;
    }

    /**
     * `equals`: the same object, or another transaction whose five properties
     * are pairwise equal (`Objects.equals`, so `null` equals `null`); never
     * equal to `null` or to an object of another class.
     */
    function Equals(o: Other): (r: bool)
      reads this, Referent(o)
      ensures o.Null? || o.OtherClass? ==> !r
      ensures o.Transaction? && o.that == this ==> r
      ensures r <==> (o.Transaction? && o.that.Fields() == Fields())
    {
      if o.Transaction? && o.that == this then true
      else if !o.Transaction? then false
      else
        && id == o.that.id
        && cardNumber == o.that.cardNumber
        && transactionDate == o.that.transactionDate
        && amount == o.that.amount
        && merchant == o.that.merchant
    }

    function HashCode(): Int
      reads this
    {
      FieldsHash(Fields())
    }
  }

  /** The bean that a transform builds with the five setters, as the normalizer's transforms do. */
  method Build(f: TransactionFields) returns (t: CreditCardTransaction)
    ensures fresh(t) && t.Fields() == f
  {
    t := new CreditCardTransaction();
    t.SetId(f.id);
    t.SetCardNumber(f.cardNumber);
    t.SetTransactionDate(f.transactionDate);
    t.SetAmount(f.amount);
    t.SetMerchant(f.merchant);
  }

  /** `equals` is symmetric. */
  lemma EqualsSymmetric(a: CreditCardTransaction, b: CreditCardTransaction)
    ensures a.Equals(Transaction(b)) == b.Equals(Transaction(a))
  {
  }

  /** `equals` is transitive. */
  lemma EqualsTransitive(a: CreditCardTransaction, b: CreditCardTransaction, c: CreditCardTransaction)
    requires a.Equals(Transaction(b)) && b.Equals(Transaction(c))
    ensures a.Equals(Transaction(c))
  {
  }

  /** Equal transactions have equal hash codes. */
  lemma HashCodeConsistent(a: CreditCardTransaction, b: CreditCardTransaction)
    requires a.Equals(Transaction(b))
    ensures a.HashCode() == b.HashCode()
  {
    assert a.Fields() == b.Fields();
  }
}
