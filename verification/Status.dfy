/** The invoice state machine. */
module Status {

  datatype InvoiceStatus = Pending | Financed | Repaid | Overdue | Cancelled | Disputed | Defaulted

  predicate Allowed(from: InvoiceStatus, to: InvoiceStatus) {
    match from
    case Pending => to == Cancelled || to == Financed
    case Financed => to == Repaid || to == Financed || to == Overdue || to == Disputed
    case Overdue => to == Defaulted
    case Disputed => to == Pending || to == Financed || to == Repaid || to == Cancelled || to == Defaulted
    case _ => false
  }

  predicate Terminal(st: InvoiceStatus) { st == Repaid || st == Cancelled || st == Defaulted }
}
