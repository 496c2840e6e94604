/** Orders, as order_service and its search index see them. */
module OrderTypes {
  import opened Prelude

  /** `NoTaxiType` and `NoStatus` stand for the empty string. */
  datatype TaxiType = NoTaxiType | Economy | Comfort | Business

  datatype Status = NoStatus | Created | DriverAssigned | InProgress | Completed | Cancelled

  datatype Location = Location(lat: real, lng: real) {
    predicate IsZero() { lat == 0.0 && lng == 0.0 }
  }

  /** Optional fields are Go pointers and nullable columns. */
  datatype Order = Order(
    id: string, userId: string, driverId: Option<string>, taxiType: TaxiType,
    start: Location, destination: Location, status: Status,
    price: Option<Int64>, rating: Option<int>, comment: Option<string>,
    createdAt: int, updatedAt: int)

  /** The search document, whose zero values stand for absent fields. */
  datatype OrderDocument = OrderDocument(
    id: string, userId: string, driverId: string, taxiType: TaxiType,
    start: Location, destination: Location, status: Status,
    price: Int64, rating: int, comment: string,
    createdAt: int, updatedAt: int)
  {
    function ToDomain(): Order {
      Order(id, userId, if driverId != "" then Some(driverId) else None, taxiType,
            start, destination, status,
            if price != 0 then Some(price) else None,
            if rating != 0 then Some(rating) else None,
            if comment != "" then Some(comment) else None,
            createdAt, updatedAt)
    }
  }

  function OrZero<T>(o: Option<T>, zero: T): T {
    match o
    case None => zero
    case Some(v) => v
  }

  function DocumentFromDomain(o: Order): OrderDocument {
    OrderDocument(o.id, o.userId, OrZero(o.driverId, ""), o.taxiType, o.start, o.destination, o.status,
                  OrZero(o.price, 0), OrZero(o.rating, 0), OrZero(o.comment, ""), o.createdAt, o.updatedAt)
  }

  /** No optional field holds the zero value that a document reads as absent. */
  predicate Normal(o: Order) {
    o.driverId != Some("") && o.price != Some(0) && o.rating != Some(0) && o.comment != Some("")
  }

  /** Indexing an order and reading it back gives that order exactly when it is normal. */
  lemma RoundTripIffNormal(o: Order)
    ensures DocumentFromDomain(o).ToDomain() == o <==> Normal(o)
  {
  }

  /** Reading back is a normalisation: the same document, and a second trip changes nothing. */
  lemma RoundTripNormalises(o: Order)
    ensures var n := DocumentFromDomain(o).ToDomain();
      Normal(n) && DocumentFromDomain(n) == DocumentFromDomain(o) && DocumentFromDomain(n).ToDomain() == n
  {
  }
}
