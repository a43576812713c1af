/** The status label and colour of an order on the storefront's order list. */
module OrderStatusView {
  /** The six statuses the page knows, spelled in upper case. */
  predicate Known(status: string) {
    status in {"PENDING", "CONFIRMED", "PROCESSING", "SHIPPED", "DELIVERED", "CANCELLED"}
  }

  /** `getStatusText`: the Czech label of a known status, any other text unchanged. */
  function StatusText(status: string): (r: string)
    ensures !Known(status) ==> r == status
  {
    match status
    case "PENDING" => "Čeká na potvrzení"
    case "CONFIRMED" => "Potvrzeno"
    case "PROCESSING" => "Zpracovává se"
    case "SHIPPED" => "Odesláno"
    case "DELIVERED" => "Doručeno"
    case "CANCELLED" => "Zrušeno"
    case _ => status
  }

  /** `getStatusColor`. */
  function StatusColor(status: string): (r: string)
    ensures !Known(status) ==> r == "text-gray-600"
  {
    match status
    case "PENDING" => "text-yellow-600"
    case "CONFIRMED" => "text-blue-600"
    case "PROCESSING" => "text-purple-600"
    case "SHIPPED" => "text-indigo-600"
    case "DELIVERED" => "text-green-600"
    case "CANCELLED" => "text-red-600"
    case _ => "text-gray-600"
  }

  /** The known statuses get six different labels, none equal to a status name, and
      six different colours, none of them the fallback grey. */
  lemma KnownStatusesAreDistinguished(s: string, t: string)
    requires Known(s) && Known(t) && s != t
    ensures StatusText(s) != StatusText(t) && StatusColor(s) != StatusColor(t)
    ensures StatusText(s) != s && StatusColor(s) != "text-gray-600"
  {
  }

  /** A label differs from its input exactly for the known statuses. */
  lemma LabelledIffKnown(status: string)
    ensures StatusText(status) != status <==> Known(status)
  {
  }

  /** The order entity stores its status in lower case (`pending` … `refunded`), and
      none of those values is known to the page: each is shown as it is, in grey. */
  lemma StoredStatusesShownRaw(status: string)
    requires status in {"pending", "confirmed", "processing", "shipped", "delivered", "cancelled", "refunded"}
    ensures StatusText(status) == status && StatusColor(status) == "text-gray-600"
  {
  }
}
