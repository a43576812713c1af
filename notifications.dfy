/** `NotificationService`: the DTOs the four helpers build and how the answer of the
    notification microservice (or its failure) is shaped into a response.
    The POST itself is an input (its outcome). */
module Notifications {
  import opened Wrappers
  import opened Text
  import opened Metadata
  import opened Money

  datatype Channel = Email | Telegram | Whatsapp

  datatype NotificationType = OrderConfirmation | PaymentConfirmation | OrderStatusUpdate | ShipmentTracking | Custom

  /** The wire name of a notification type. */
  function TypeName(t: NotificationType): (s: string) {
    match t
    case OrderConfirmation => "order_confirmation"
    case PaymentConfirmation => "payment_confirmation"
    case OrderStatusUpdate => "order_status_update"
    case ShipmentTracking => "shipment_tracking"
    case Custom => "custom"
  }

  /** Distinct types have distinct wire names. */
  lemma TypeNamesDistinct(a: NotificationType, b: NotificationType)
    ensures TypeName(a) == TypeName(b) ==> a == b
  {
  }

  datatype SendNotificationDto = SendNotificationDto(
    channel: Channel,
    notificationType: NotificationType,
    recipient: string,
    subject: Option<string>,
    message: string,
    templateData: Entries)

  datatype NotificationData = NotificationData(id: string, status: string, channel: Channel, recipient: string)

  datatype NotificationError = NotificationError(code: string, message: string)

  datatype NotificationResponse = NotificationResponse(
    success: bool,
    data: Option<NotificationData>,
    error: Option<NotificationError>)

  /** What the POST to `<url>/notifications/send` did: the response body, or an
      error with its (possibly empty) message. */
  datatype PostOutcome = Answered(body: NotificationResponse) | PostFailed(message: string)

  function ServiceUrl(configured: Option<string>): string {
    (if configured.Some? && configured.value != "" then configured.value else "http://notification-microservice:3010")
      + "/notifications/send"
  }

  /** `sendNotification` never throws: the service's body is returned as it came,
      and a failure becomes an unsuccessful response with code `NOTIFICATION_FAILED`. */
  function SendNotification(dto: SendNotificationDto, outcome: PostOutcome): (r: NotificationResponse)
    ensures outcome.Answered? ==> r == outcome.body
    ensures outcome.PostFailed? ==>
      && !r.success && r.data.None?
      && r.error == Some(NotificationError("NOTIFICATION_FAILED",
                           if outcome.message != "" then outcome.message else "Failed to send notification"))
  {
    match outcome
    case Answered(body) => body
    case PostFailed(m) =>
      NotificationResponse(false, None,
        Some(NotificationError("NOTIFICATION_FAILED", if m != "" then m else "Failed to send notification")))
  }

  // ---- The four helpers ----

  function ChannelOr(channel: Option<Channel>): Channel { channel.GetOr(Email) }

  function OrderConfirmationDto(recipient: string, orderNumber: string, orderTotal: int, channel: Option<Channel>)
    : (d: SendNotificationDto)
    ensures d.notificationType == OrderConfirmation && d.recipient == recipient && d.channel == ChannelOr(channel)
    ensures d.subject == Some("Potvrzení objednávky " + orderNumber)
    ensures Lookup(d.templateData, "orderNumber") == Some(orderNumber)
    ensures Lookup(d.templateData, "orderTotal") == Some(FormatHundredths(orderTotal))
  {
    SendNotificationDto(ChannelOr(channel), OrderConfirmation, recipient,
      Some("Potvrzení objednávky " + orderNumber),
      "Vaše objednávka {{orderNumber}} byla úspěšně vytvořena. Celková částka: {{orderTotal}} Kč.",
      [("orderNumber", orderNumber), ("orderTotal", FormatHundredths(orderTotal))])
  }

  function PaymentConfirmationDto(recipient: string, orderNumber: string, paymentAmount: int, channel: Option<Channel>)
    : (d: SendNotificationDto)
    ensures d.notificationType == PaymentConfirmation && d.recipient == recipient && d.channel == ChannelOr(channel)
    ensures d.subject == Some("Potvrzení platby za objednávku " + orderNumber)
    ensures Lookup(d.templateData, "orderNumber") == Some(orderNumber)
    ensures Lookup(d.templateData, "paymentAmount") == Some(FormatHundredths(paymentAmount))
  {
    SendNotificationDto(ChannelOr(channel), PaymentConfirmation, recipient,
      Some("Potvrzení platby za objednávku " + orderNumber),
      "Platba za objednávku {{orderNumber}} byla úspěšně přijata. Částka: {{paymentAmount}} Kč.",
      [("orderNumber", orderNumber), ("paymentAmount", FormatHundredths(paymentAmount))])
  }

  function OrderStatusUpdateDto(recipient: string, orderNumber: string, status: string, channel: Option<Channel>)
    : (d: SendNotificationDto)
    ensures d.notificationType == OrderStatusUpdate && d.recipient == recipient && d.channel == ChannelOr(channel)
    ensures d.subject == Some("Aktualizace stavu objednávky " + orderNumber)
    ensures Lookup(d.templateData, "orderNumber") == Some(orderNumber)
    ensures Lookup(d.templateData, "status") == Some(status)
  {
    SendNotificationDto(ChannelOr(channel), OrderStatusUpdate, recipient,
      Some("Aktualizace stavu objednávky " + orderNumber),
      "Stav vaší objednávky {{orderNumber}} byl aktualizován na: {{status}}.",
      [("orderNumber", orderNumber), ("status", status)])
  }

  function ShipmentTrackingDto(recipient: string, orderNumber: string, trackingNumber: string, channel: Option<Channel>)
    : (d: SendNotificationDto)
    ensures d.notificationType == ShipmentTracking && d.recipient == recipient && d.channel == ChannelOr(channel)
    ensures d.subject == Some("Informace o odeslání objednávky " + orderNumber)
    ensures Lookup(d.templateData, "orderNumber") == Some(orderNumber)
    ensures Lookup(d.templateData, "trackingNumber") == Some(trackingNumber)
  {
    SendNotificationDto(ChannelOr(channel), ShipmentTracking, recipient,
      Some("Informace o odeslání objednávky " + orderNumber),
      "Vaše objednávka {{orderNumber}} byla odeslána. Sledovací číslo: {{trackingNumber}}.",
      [("orderNumber", orderNumber), ("trackingNumber", trackingNumber)])
  }

  /** The message text is a fixed template: none of the arguments is spliced into it,
      their values travel in `templateData`. */
  lemma MessagesAreTemplates(r1: string, n1: string, x1: int, c1: Option<Channel>,
                             r2: string, n2: string, x2: int, c2: Option<Channel>)
    ensures OrderConfirmationDto(r1, n1, x1, c1).message == OrderConfirmationDto(r2, n2, x2, c2).message
    ensures PaymentConfirmationDto(r1, n1, x1, c1).message == PaymentConfirmationDto(r2, n2, x2, c2).message
  {
  }

  function SendOrderConfirmation(recipient: string, orderNumber: string, orderTotal: int, channel: Option<Channel>,
                                 outcome: PostOutcome): NotificationResponse {
    SendNotification(OrderConfirmationDto(recipient, orderNumber, orderTotal, channel), outcome)
  }

  function SendPaymentConfirmation(recipient: string, orderNumber: string, paymentAmount: int, channel: Option<Channel>,
                                   outcome: PostOutcome): NotificationResponse {
    SendNotification(PaymentConfirmationDto(recipient, orderNumber, paymentAmount, channel), outcome)
  }

  function SendOrderStatusUpdate(recipient: string, orderNumber: string, status: string, channel: Option<Channel>,
                                 outcome: PostOutcome): NotificationResponse {
    SendNotification(OrderStatusUpdateDto(recipient, orderNumber, status, channel), outcome)
  }

  function SendShipmentTracking(recipient: string, orderNumber: string, trackingNumber: string, channel: Option<Channel>,
                                outcome: PostOutcome): NotificationResponse {
    SendNotification(ShipmentTrackingDto(recipient, orderNumber, trackingNumber, channel), outcome)
  }
}
