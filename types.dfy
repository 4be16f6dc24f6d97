/** The domain records shared by the store and both consoles (types.ts).
    Ids are the strings the tables use; money is held in integer cents;
    coordinates are kept as opaque reals and never computed with. */
module Types {
  import opened Base

  type Id = string

  /** The four delivery states; nothing else is ever stored in `status`. */
  datatype DeliveryStatus = Pending | InProgress | Delivered | Failed

  /** DELIVERED and FAILED close a delivery: the driver console lists them as history. */
  predicate IsTerminal(s: DeliveryStatus)
  {
    s == Delivered || s == Failed
  }

  datatype Vehicle = Vehicle(id: Id, plate: string, model: string)

  datatype LastLocation = LastLocation(lat: real, lng: real, updatedAt: string)

  /** `password` is optional: old rows have none. */
  datatype Driver = Driver(id: Id, name: string, password: Option<string>, lastLocation: Option<LastLocation>)

  /** `driverId` and `vehicleId` are each an id or null; `value` is in cents. */
  datatype Invoice = Invoice(
    id: Id,
    accessKey: string,
    number: string,
    series: string,
    customerName: string,
    customerDoc: string,
    customerAddress: string,
    customerZip: string,
    value: int,
    status: DeliveryStatus,
    driverId: Option<Id>,
    vehicleId: Option<Id>,
    createdAt: string)

  datatype ReturnType = Total | Partial

  /** A proof is keyed by `invoiceId`; its coordinates are each a number or null.
      `returnType` and `returnItems` are declared but no code path sets them. */
  datatype DeliveryProof = DeliveryProof(
    invoiceId: Id,
    receiverName: string,
    receiverDoc: string,
    signatureData: string,
    photoUrl: string,
    photoStubUrl: Option<string>,
    returnType: Option<ReturnType>,
    returnItems: Option<string>,
    geoLat: Option<real>,
    geoLong: Option<real>,
    deliveredAt: string,
    notes: Option<string>,
    failureReason: Option<string>)

  datatype NotificationType = Info | Success | Warning

  /** The recipient is the string "ADMIN" or a driver id. */
  const ADMIN: Id := "ADMIN"

  datatype AppNotification = AppNotification(
    id: Id,
    recipientId: Id,
    title: string,
    message: string,
    kind: NotificationType,
    read: bool,
    timestamp: string)

  /** The screens of the application; the driver screens carry the driver id,
      and the delivery screen also the invoice id. */
  datatype ViewState =
    | RoleSelect
    | AdminLogin
    | AdminDashboard
    | DriverLogin
    | DriverList(driverId: Id)
    | DriverAction(driverId: Id, invoiceId: Id)
}
