/** The data service (services/db.ts): five tables held in memory by a `Store`
    object, and the operations the consoles run against them. Every remote step
    that can fail is a boolean parameter `...Fails`; a failed step changes
    nothing, and the steps after it run or not exactly as the service decides. */
module Db {
  import opened Base
  import opened JsText
  import opened Types

  const ADMIN_PASSWORD_DEFAULT: string := "admin123"

  // ------------------------------------------------------------------ rows

  /** `.single()`: the row when exactly one matched, otherwise nothing. */
  function Single<T>(rows: seq<T>): (r: Option<T>)
    ensures r.Some? <==> |rows| == 1
    ensures r.Some? ==> r.value == rows[0]
  {
    if |rows| == 1 then Some(rows[0]) else None
  }

  function IsInvoice(id: Id): Invoice -> bool
  {
    (inv: Invoice) => inv.id == id
  }

  function NotInvoice(id: Id): Invoice -> bool
  {
    (inv: Invoice) => inv.id != id
  }

  function ByDriver(driverId: Id): Invoice -> bool
  {
    (inv: Invoice) => inv.driverId == Some(driverId)
  }

  function ByVehicle(vehicleId: Id): Invoice -> bool
  {
    (inv: Invoice) => inv.vehicleId == Some(vehicleId)
  }

  /** The rows `startRoute` counts and moves: this driver's PENDING invoices. */
  function PendingFor(driverId: Id): Invoice -> bool
  {
    (inv: Invoice) => inv.driverId == Some(driverId) && inv.status == Pending
  }

  function InProgressFor(driverId: Id): Invoice -> bool
  {
    (inv: Invoice) => inv.driverId == Some(driverId) && inv.status == InProgress
  }

  function SetStatus(status: DeliveryStatus): Invoice -> Invoice
  {
    (inv: Invoice) => inv.(status := status)
  }

  /** The update `assignLogistics` writes: both ids as given, and PENDING only
      when a driver is given. */
  function Assign(driverId: Option<Id>, vehicleId: Option<Id>): Invoice -> Invoice
  {
    (inv: Invoice) => inv.(driverId := driverId, vehicleId := vehicleId,
                status := if Present(driverId) then Pending else inv.status)
  }

  function ClearDriver(): Invoice -> Invoice
  {
    (inv: Invoice) => inv.(driverId := None)
  }

  function ClearVehicle(): Invoice -> Invoice
  {
    (inv: Invoice) => inv.(vehicleId := None)
  }

  function ProofOf(invoiceId: Id): DeliveryProof -> bool
  {
    (p: DeliveryProof) => p.invoiceId == invoiceId
  }

  function NotProofOf(invoiceId: Id): DeliveryProof -> bool
  {
    (p: DeliveryProof) => p.invoiceId != invoiceId
  }

  function HasDriverId(id: Id): Driver -> bool
  {
    (d: Driver) => d.id == id
  }

  function NotDriver(id: Id): Driver -> bool
  {
    (d: Driver) => d.id != id
  }

  function HasVehicleId(id: Id): Vehicle -> bool
  {
    (v: Vehicle) => v.id == id
  }

  function NotVehicle(id: Id): Vehicle -> bool
  {
    (v: Vehicle) => v.id != id
  }

  function UnreadOf(recipientId: Id): AppNotification -> bool
  {
    (n: AppNotification) => n.recipientId == recipientId && !n.read
  }

  function MarkRead(): AppNotification -> AppNotification
  {
    (n: AppNotification) => n.(read := true)
  }

  // ------------------------------------------------------------------ table updates

  function AssignRows(invoices: seq<Invoice>, invoiceId: Id, driverId: Option<Id>, vehicleId: Option<Id>): seq<Invoice>
  {
    MapWhere(invoices, IsInvoice(invoiceId), Assign(driverId, vehicleId))
  }

  function StartRouteRows(invoices: seq<Invoice>, driverId: Id): seq<Invoice>
  {
    MapWhere(invoices, PendingFor(driverId), SetStatus(InProgress))
  }

  /** The status `saveProof` writes: FAILED when the proof carries a failure
      reason (a non-empty string), DELIVERED otherwise. */
  function StatusAfterProof(proof: DeliveryProof): (s: DeliveryStatus)
    ensures IsTerminal(s)
    ensures s == Failed <==> Present(proof.failureReason)
  {
    if Present(proof.failureReason) then Failed else Delivered
  }

  function ProofRows(invoices: seq<Invoice>, proof: DeliveryProof): seq<Invoice>
  {
    MapWhere(invoices, IsInvoice(proof.invoiceId), SetStatus(StatusAfterProof(proof)))
  }

  function UnreadFor(notifications: seq<AppNotification>, recipientId: Id): seq<AppNotification>
  {
    Filter(notifications, UnreadOf(recipientId))
  }

  function AfterConsume(notifications: seq<AppNotification>, recipientId: Id): seq<AppNotification>
  {
    MapWhere(notifications, UnreadOf(recipientId), MarkRead())
  }

  function CurrentInvoice(invoices: seq<Invoice>, invoiceId: Id): Option<Invoice>
  {
    Single(Filter(invoices, IsInvoice(invoiceId)))
  }

  /** `verifyDriverCredentials` on a table that answered: false unless exactly
      one driver has the id; true when that driver has no password (null or
      empty); otherwise true exactly when the input equals the password. */
  function CredentialsOk(drivers: seq<Driver>, driverId: Id, input: string): (ok: bool)
    ensures Count(drivers, HasDriverId(driverId)) == 0 ==> !ok
    ensures ok ==> |Filter(drivers, HasDriverId(driverId))| == 1
  {
    CountIsFilterLength(drivers, HasDriverId(driverId));
    match Single(Filter(drivers, HasDriverId(driverId)))
    case None => false
    case Some(d) => !Present(d.password) || d.password.value == input
  }

  /** The admin password: the configured one when set and non-empty, else the default. */
  function AdminPassword(setting: Option<string>): (p: string)
    ensures p != ""
    ensures !Present(setting) ==> p == ADMIN_PASSWORD_DEFAULT
  {
    OrElse(setting, ADMIN_PASSWORD_DEFAULT)
  }

  /** The name `startRoute` announces: the driver's name, or "Motorista" when
      the lookup fails or the name is empty. */
  function AnnouncedName(drivers: seq<Driver>, driverId: Id, lookupFails: bool): (name: string)
    ensures name != ""
  {
    var found := if lookupFails then None else Single(Filter(drivers, HasDriverId(driverId)));
    Or(if found.Some? then found.value.name else "", "Motorista")
  }

  function RouteStartMessage(name: string, count: nat): string
  {
    name + " iniciou a rota com " + NatToString(count) + " entregas."
  }

  function NewCargoMessage(number: string): string
  {
    "NF " + number + " adicionada."
  }

  /** The "Nova Carga" notification `assignLogistics` publishes for the rows
      `invoices` it read: to the given driver, when the invoice read back (no
      read when `selectFails`) had another driver and the insert goes through. */
  function NewCargoNote(invoices: seq<Invoice>, invoiceId: Id, driverId: Option<Id>, notificationId: Id, now: string,
                        selectFails: bool, notifyFails: bool): (r: Option<AppNotification>)
    ensures r.Some? <==>
      && Present(driverId) && !selectFails && !notifyFails
      && CurrentInvoice(invoices, invoiceId).Some? && CurrentInvoice(invoices, invoiceId).value.driverId != driverId
    ensures r.Some? ==>
      && r.value.recipientId == driverId.value && r.value.title == "Nova Carga" && !r.value.read
      && r.value.message == NewCargoMessage(CurrentInvoice(invoices, invoiceId).value.number)
      && r.value.id == notificationId && r.value.timestamp == now
  {
    var current := if selectFails then None else CurrentInvoice(invoices, invoiceId);
    if Present(driverId) && current.Some? && current.value.driverId != driverId && !notifyFails
    then Some(AppNotification(notificationId, driverId.value, "Nova Carga", NewCargoMessage(current.value.number), Info, false, now))
    else None
  }

  /** The rows an optional notification appends. */
  function Appended<T>(o: Option<T>): seq<T>
  {
    if o.Some? then [o.value] else []
  }

  // ------------------------------------------------------------------ state invariants

  predicate HasProof(proofs: seq<DeliveryProof>, invoiceId: Id)
  {
    exists j :: 0 <= j < |proofs| && proofs[j].invoiceId == invoiceId
  }

  /** The designed pairing of proofs and statuses: an invoice has a proof
      exactly when it is DELIVERED or FAILED. */
  predicate ProofsMatchStatus(invoices: seq<Invoice>, proofs: seq<DeliveryProof>)
  {
    forall k :: 0 <= k < |invoices| ==> (HasProof(proofs, invoices[k].id) <==> IsTerminal(invoices[k].status))
  }

  predicate DriverExists(drivers: seq<Driver>, id: Id)
  {
    exists j :: 0 <= j < |drivers| && drivers[j].id == id
  }

  predicate VehicleExists(vehicles: seq<Vehicle>, id: Id)
  {
    exists j :: 0 <= j < |vehicles| && vehicles[j].id == id
  }

  /** Every driver and vehicle an invoice names exists. */
  predicate ReferencesResolve(invoices: seq<Invoice>, drivers: seq<Driver>, vehicles: seq<Vehicle>)
  {
    forall k :: 0 <= k < |invoices| ==>
      (invoices[k].driverId.Some? ==> DriverExists(drivers, invoices[k].driverId.value)) &&
      (invoices[k].vehicleId.Some? ==> VehicleExists(vehicles, invoices[k].vehicleId.value))
  }

  // ------------------------------------------------------------------ the store

  class Store {
    var invoices: seq<Invoice>
    var proofs: seq<DeliveryProof>
    var drivers: seq<Driver>
    var vehicles: seq<Vehicle>
    var notifications: seq<AppNotification>
    /** VITE_ADMIN_PASSWORD, when the deployment sets it. */
    const adminPasswordSetting: Option<string>

    constructor (adminPasswordSetting: Option<string>)
      ensures invoices == [] && proofs == [] && drivers == [] && vehicles == [] && notifications == []
      ensures this.adminPasswordSetting == adminPasswordSetting
    {
      invoices, proofs, drivers, vehicles, notifications := [], [], [], [], [];
      this.adminPasswordSetting := adminPasswordSetting;
    }

    /** Appends one unread notification; the type defaults to INFO. */
    method AddNotification(recipientId: Id, title: string, message: string, id: Id, timestamp: string,
                           insertFails: bool, kind: NotificationType := Info)
      modifies this`notifications
      ensures insertFails ==> notifications == old(notifications)
      ensures !insertFails ==> notifications == old(notifications) + [AppNotification(id, recipientId, title, message, kind, false, timestamp)]
    {
      if !insertFails {
        notifications := notifications + [AppNotification(id, recipientId, title, message, kind, false, timestamp)];
      }
    }

    /** Returns the recipient's unread notifications and marks exactly those read. */
    method ConsumeNotifications(recipientId: Id, selectFails: bool, updateFails: bool) returns (r: seq<AppNotification>)
      modifies this`notifications
      ensures selectFails ==> r == [] && notifications == old(notifications)
      ensures !selectFails ==> r == UnreadFor(old(notifications), recipientId)
      ensures forall n :: n in r <==> !selectFails && n in old(notifications) && n.recipientId == recipientId && !n.read
      ensures notifications == if selectFails || updateFails then old(notifications) else AfterConsume(old(notifications), recipientId)
    {
      if selectFails {
        return [];
      }
      r := UnreadFor(notifications, recipientId);
      if r == [] {
        CountIsFilterLength(notifications, UnreadOf(recipientId));
        MapWhereNoMatch(notifications, UnreadOf(recipientId), MarkRead());
        return;
      }
      if !updateFails {
        notifications := AfterConsume(notifications, recipientId);
      }
    }

    method VerifyDriverCredentials(driverId: Id, passwordInput: string, selectFails: bool) returns (ok: bool)
      ensures ok == (!selectFails && CredentialsOk(drivers, driverId, passwordInput))
      ensures selectFails || Count(drivers, HasDriverId(driverId)) == 0 ==> !ok
    {
      if selectFails {
        return false;
      }
      ok := CredentialsOk(drivers, driverId, passwordInput);
    }

    method AddDriver(driver: Driver, insertFails: bool)
      modifies this`drivers
      ensures drivers == if insertFails then old(drivers) else old(drivers) + [driver]
    {
      if !insertFails {
        drivers := drivers + [driver];
      }
    }

    /** Removes the driver; only when that succeeded, clears `driverId` on every
        invoice that named it. */
    method DeleteDriver(driverId: Id, deleteFails: bool, cascadeFails: bool)
      modifies this`drivers, this`invoices
      ensures drivers == if deleteFails then old(drivers) else Filter(old(drivers), NotDriver(driverId))
      ensures invoices == if deleteFails || cascadeFails then old(invoices)
                          else MapWhere(old(invoices), ByDriver(driverId), ClearDriver())
    {
      if !deleteFails {
        drivers := Filter(drivers, NotDriver(driverId));
        if !cascadeFails {
          invoices := MapWhere(invoices, ByDriver(driverId), ClearDriver());
        }
      }
    }

    method AddVehicle(vehicle: Vehicle, insertFails: bool)
      modifies this`vehicles
      ensures vehicles == if insertFails then old(vehicles) else old(vehicles) + [vehicle]
    {
      if !insertFails {
        vehicles := vehicles + [vehicle];
      }
    }

    /** Removes the vehicle; only when that succeeded, clears `vehicleId` on
        every invoice that named it. */
    method DeleteVehicle(vehicleId: Id, deleteFails: bool, cascadeFails: bool)
      modifies this`vehicles, this`invoices
      ensures vehicles == if deleteFails then old(vehicles) else Filter(old(vehicles), NotVehicle(vehicleId))
      ensures invoices == if deleteFails || cascadeFails then old(invoices)
                          else MapWhere(old(invoices), ByVehicle(vehicleId), ClearVehicle())
    {
      if !deleteFails {
        vehicles := Filter(vehicles, NotVehicle(vehicleId));
        if !cascadeFails {
          invoices := MapWhere(invoices, ByVehicle(vehicleId), ClearVehicle());
        }
      }
    }

    /** The driver's invoices, in table order; nothing when the query fails. */
    method GetInvoicesByDriver(driverId: Id, selectFails: bool) returns (r: seq<Invoice>)
      ensures selectFails ==> r == []
      ensures !selectFails ==> r == Filter(invoices, ByDriver(driverId))
      ensures forall inv :: inv in r <==> !selectFails && inv in invoices && inv.driverId == Some(driverId)
    {
      if selectFails {
        return [];
      }
      r := Filter(invoices, ByDriver(driverId));
    }

    method AddInvoice(invoice: Invoice, insertFails: bool)
      modifies this`invoices
      ensures invoices == if insertFails then old(invoices) else old(invoices) + [invoice]
    {
      if !insertFails {
        invoices := invoices + [invoice];
      }
    }

    /** Deletes the invoice's proofs, then the invoice; the two deletes are
        independent requests. */
    method DeleteInvoice(invoiceId: Id, proofDeleteFails: bool, invoiceDeleteFails: bool)
      modifies this`proofs, this`invoices
      ensures proofs == if proofDeleteFails then old(proofs) else Filter(old(proofs), NotProofOf(invoiceId))
      ensures invoices == if invoiceDeleteFails then old(invoices) else Filter(old(invoices), NotInvoice(invoiceId))
    {
      if !proofDeleteFails {
        proofs := Filter(proofs, NotProofOf(invoiceId));
      }
      if !invoiceDeleteFails {
        invoices := Filter(invoices, NotInvoice(invoiceId));
      }
    }

    /** Writes exactly the given driver and vehicle to the invoice, and PENDING
        when a driver is given, whatever the invoice's status was; publishes
        "Nova Carga" to the driver when the driver is given and differs from the
        one the invoice had. */
    method AssignLogistics(invoiceId: Id, driverId: Option<Id>, vehicleId: Option<Id>,
                           notificationId: Id, now: string,
                           selectFails: bool, updateFails: bool, notifyFails: bool)
      modifies this`invoices, this`notifications
      ensures invoices == if updateFails then old(invoices) else AssignRows(old(invoices), invoiceId, driverId, vehicleId)
      ensures var current := if selectFails then None else CurrentInvoice(old(invoices), invoiceId);
              var publishes := Present(driverId) && current.Some? && current.value.driverId != driverId && !notifyFails;
              notifications == old(notifications) +
                (if publishes
                 then [AppNotification(notificationId, driverId.value, "Nova Carga", NewCargoMessage(current.value.number), Info, false, now)]
                 else [])
      ensures notifications == old(notifications) +
                Appended(NewCargoNote(old(invoices), invoiceId, driverId, notificationId, now, selectFails, notifyFails))
    {
      var current := if selectFails then None else CurrentInvoice(invoices, invoiceId);
      if !updateFails {
        invoices := AssignRows(invoices, invoiceId, driverId, vehicleId);
      }
      if Present(driverId) && current.Some? && current.value.driverId != driverId {
        AddNotification(driverId.value, "Nova Carga", NewCargoMessage(current.value.number), notificationId, now, notifyFails, Info);
      }
    }

    /** Moves the driver's PENDING invoices to IN_PROGRESS in one update and
        tells the manager how many there were; with none, does nothing. */
    method StartRoute(driverId: Id, notificationId: Id, now: string,
                      countFails: bool, updateFails: bool, nameFails: bool, notifyFails: bool)
      modifies this`invoices, this`notifications
      ensures var count := Count(old(invoices), PendingFor(driverId));
              var moves := !countFails && count > 0 && !updateFails;
              && invoices == (if moves then StartRouteRows(old(invoices), driverId) else old(invoices))
              && notifications == old(notifications) +
                   (if moves && !notifyFails
                    then [AppNotification(notificationId, ADMIN, "Início de Rota",
                                          RouteStartMessage(AnnouncedName(drivers, driverId, nameFails), count), Info, false, now)]
                    else [])
    {
      var count := if countFails then 0 else Count(invoices, PendingFor(driverId));
      if count > 0 {
        if !updateFails {
          invoices := StartRouteRows(invoices, driverId);
          var name := AnnouncedName(drivers, driverId, nameFails);
          AddNotification(ADMIN, "Início de Rota", RouteStartMessage(name, count), notificationId, now, notifyFails, Info);
        }
      }
    }

    /** Inserts the proof; only when the insert succeeded, sets the invoice to
        FAILED (failure reason present) or DELIVERED. The current status is
        not consulted. */
    method SaveProof(proof: DeliveryProof, insertFails: bool, updateFails: bool)
      modifies this`proofs, this`invoices
      ensures proofs == if insertFails then old(proofs) else old(proofs) + [proof]
      ensures invoices == if insertFails || updateFails then old(invoices) else ProofRows(old(invoices), proof)
    {
      if !insertFails {
        proofs := proofs + [proof];
        if !updateFails {
          invoices := ProofRows(invoices, proof);
        }
      }
    }

    method GetProofByInvoiceId(invoiceId: Id, selectFails: bool) returns (r: Option<DeliveryProof>)
      ensures r.Some? <==> !selectFails && |Filter(proofs, ProofOf(invoiceId))| == 1
      ensures r.Some? ==> r.value in proofs && r.value.invoiceId == invoiceId
    {
      r := if selectFails then None else Single(Filter(proofs, ProofOf(invoiceId)));
    }

    method VerifyAdminPassword(passwordInput: string) returns (ok: bool)
      ensures ok <==> passwordInput == AdminPassword(adminPasswordSetting)
      ensures !Present(adminPasswordSetting) ==> (ok <==> passwordInput == "admin123")
    {
      ok := passwordInput == AdminPassword(adminPasswordSetting);
    }
  }

  // ------------------------------------------------------------------ properties

  /** `assignLogistics` on a row: exactly the given ids, PENDING exactly when a
      driver is given (status kept otherwise), every other field and every other
      invoice untouched. */
  lemma AssignRowsEffect(invoices: seq<Invoice>, invoiceId: Id, driverId: Option<Id>, vehicleId: Option<Id>, k: nat)
    requires k < |invoices|
    ensures var after := AssignRows(invoices, invoiceId, driverId, vehicleId);
            |after| == |invoices| &&
            (invoices[k].id == invoiceId ==>
               after[k].driverId == driverId && after[k].vehicleId == vehicleId &&
               (after[k].status == Pending <==> Present(driverId) || invoices[k].status == Pending) &&
               after[k].(driverId := invoices[k].driverId, vehicleId := invoices[k].vehicleId, status := invoices[k].status) == invoices[k]) &&
            (invoices[k].id != invoiceId ==> after[k] == invoices[k])
  {
  }

  /** With a driver, even a DELIVERED invoice goes back to PENDING: the store
      does not guard terminal statuses. */
  lemma AssignReopensDelivered(invoices: seq<Invoice>, k: nat, driverId: Id, vehicleId: Option<Id>)
    requires k < |invoices| && invoices[k].status == Delivered && driverId != ""
    ensures AssignRows(invoices, invoices[k].id, Some(driverId), vehicleId)[k].status == Pending
  {
  }

  /** Reopening a delivered invoice leaves its proof behind: `assignLogistics`
      breaks the pairing of proofs and terminal statuses. */
  lemma AssignBreaksProofPairing(inv: Invoice, proof: DeliveryProof)
    requires inv.status == Delivered && proof.invoiceId == inv.id
    ensures ProofsMatchStatus([inv], [proof])
    ensures !ProofsMatchStatus(AssignRows([inv], inv.id, Some("driver-2"), None), [proof])
  {
    var after := AssignRows([inv], inv.id, Some("driver-2"), None);
    assert after[0].status == Pending;
    assert [proof][0].invoiceId == after[0].id;
  }

  /** `startRoute` moves exactly this driver's PENDING rows to IN_PROGRESS. */
  lemma StartRouteEffect(invoices: seq<Invoice>, driverId: Id, k: nat)
    requires k < |invoices|
    ensures var after := StartRouteRows(invoices, driverId);
            |after| == |invoices| &&
            after[k].status == (if invoices[k].driverId == Some(driverId) && invoices[k].status == Pending
                                then InProgress else invoices[k].status) &&
            after[k].(status := invoices[k].status) == invoices[k]
  {
  }

  /** After `startRoute` the driver has no PENDING invoice left, and the number
      of IN_PROGRESS ones grew by exactly the count that was announced. */
  lemma StartRouteCounts(invoices: seq<Invoice>, driverId: Id)
    ensures Count(StartRouteRows(invoices, driverId), PendingFor(driverId)) == 0
    ensures Count(StartRouteRows(invoices, driverId), InProgressFor(driverId))
            == Count(invoices, InProgressFor(driverId)) + Count(invoices, PendingFor(driverId))
  {
    MapWhereClears(invoices, PendingFor(driverId), SetStatus(InProgress));
    MapWhereCountMoves(invoices, PendingFor(driverId), SetStatus(InProgress), InProgressFor(driverId));
  }

  /** With no PENDING invoice, the route update changes no row. */
  lemma StartRouteWithoutPending(invoices: seq<Invoice>, driverId: Id)
    requires Count(invoices, PendingFor(driverId)) == 0
    ensures StartRouteRows(invoices, driverId) == invoices
  {
    MapWhereNoMatch(invoices, PendingFor(driverId), SetStatus(InProgress));
  }

  /** The announced message carries the count, readable back from the text. */
  lemma RouteStartMessageCarriesCount(name: string, count: nat)
    ensures var m := RouteStartMessage(name, count);
            var prefix := name + " iniciou a rota com ";
            var digits := NatToString(count);
            m[|prefix|..|prefix| + |digits|] == digits && DigitsValue(digits) == count
  {
    NatToStringRoundTrip(count);
    var prefix := name + " iniciou a rota com ";
    var digits := NatToString(count);
    assert RouteStartMessage(name, count) == prefix + digits + " entregas.";
  }

  /** `startRoute` keeps the proof pairing: PENDING and IN_PROGRESS are both open. */
  lemma StartRouteKeepsProofPairing(invoices: seq<Invoice>, proofs: seq<DeliveryProof>, driverId: Id)
    requires ProofsMatchStatus(invoices, proofs)
    ensures ProofsMatchStatus(StartRouteRows(invoices, driverId), proofs)
  {
  }

  /** A first proof for an invoice keeps the pairing, whatever the invoice's
      status was before (PENDING included: the store goes PENDING -> DELIVERED
      directly when the route was never started). */
  lemma SaveProofKeepsProofPairing(invoices: seq<Invoice>, proofs: seq<DeliveryProof>, proof: DeliveryProof)
    requires ProofsMatchStatus(invoices, proofs)
    requires !HasProof(proofs, proof.invoiceId)
    ensures ProofsMatchStatus(ProofRows(invoices, proof), proofs + [proof])
  {
    var after := ProofRows(invoices, proof);
    var ps := proofs + [proof];
    forall k | 0 <= k < |after|
      ensures HasProof(ps, after[k].id) <==> IsTerminal(after[k].status)
    {
      if after[k].id == proof.invoiceId {
        assert ps[|proofs|].invoiceId == proof.invoiceId;
      } else {
        if HasProof(ps, after[k].id) {
          var j :| 0 <= j < |ps| && ps[j].invoiceId == after[k].id;
          assert j < |proofs|;
          assert HasProof(proofs, invoices[k].id);
        }
        if HasProof(proofs, invoices[k].id) {
          var j :| 0 <= j < |proofs| && proofs[j].invoiceId == invoices[k].id;
          assert ps[j] == proofs[j];
        }
      }
    }
  }

  /** `saveProof` decides the new status from the proof alone: a PENDING
      invoice becomes DELIVERED without passing through IN_PROGRESS. */
  lemma SaveProofSkipsRouteStart(invoices: seq<Invoice>, k: nat, proof: DeliveryProof)
    requires k < |invoices| && invoices[k].status == Pending
    requires proof.invoiceId == invoices[k].id && !Present(proof.failureReason)
    ensures ProofRows(invoices, proof)[k].status == Delivered
  {
  }

  /** Deleting an invoice with both deletes succeeding keeps the pairing, and
      leaves no proof of it. */
  lemma DeleteInvoiceKeepsProofPairing(invoices: seq<Invoice>, proofs: seq<DeliveryProof>, invoiceId: Id)
    requires ProofsMatchStatus(invoices, proofs)
    ensures !HasProof(Filter(proofs, NotProofOf(invoiceId)), invoiceId)
    ensures forall inv :: inv in Filter(invoices, NotInvoice(invoiceId)) ==> inv.id != invoiceId
    ensures ProofsMatchStatus(Filter(invoices, NotInvoice(invoiceId)), Filter(proofs, NotProofOf(invoiceId)))
  {
    var invs := Filter(invoices, NotInvoice(invoiceId));
    var ps := Filter(proofs, NotProofOf(invoiceId));
    forall k | 0 <= k < |invs|
      ensures HasProof(ps, invs[k].id) <==> IsTerminal(invs[k].status)
    {
      var inv := invs[k];
      assert inv in invoices && inv.id != invoiceId;
      var i :| 0 <= i < |invoices| && invoices[i] == inv;
      if HasProof(ps, inv.id) {
        var j :| 0 <= j < |ps| && ps[j].invoiceId == inv.id;
        assert ps[j] in proofs;
        var j' :| 0 <= j' < |proofs| && proofs[j'] == ps[j];
        assert HasProof(proofs, invoices[i].id);
      }
      if HasProof(proofs, inv.id) {
        var j :| 0 <= j < |proofs| && proofs[j].invoiceId == inv.id;
        assert proofs[j] in ps;
        var j' :| 0 <= j' < |ps| && ps[j'] == proofs[j];
      }
    }
  }

  /** A successful driver delete with its cascade keeps every reference
      resolvable, and no invoice names the deleted driver any more. */
  lemma DeleteDriverKeepsReferences(invoices: seq<Invoice>, drivers: seq<Driver>, vehicles: seq<Vehicle>, driverId: Id)
    requires ReferencesResolve(invoices, drivers, vehicles)
    ensures var invs := MapWhere(invoices, ByDriver(driverId), ClearDriver());
            ReferencesResolve(invs, Filter(drivers, NotDriver(driverId)), vehicles) &&
            Count(invs, ByDriver(driverId)) == 0
  {
    var invs := MapWhere(invoices, ByDriver(driverId), ClearDriver());
    var ds := Filter(drivers, NotDriver(driverId));
    forall k | 0 <= k < |invs| && invs[k].driverId.Some?
      ensures DriverExists(ds, invs[k].driverId.value)
    {
      var id := invs[k].driverId.value;
      assert invoices[k].driverId == Some(id) && id != driverId;
      var j :| 0 <= j < |drivers| && drivers[j].id == id;
      assert drivers[j] in ds;
      var j' :| 0 <= j' < |ds| && ds[j'] == drivers[j];
    }
    MapWhereClears(invoices, ByDriver(driverId), ClearDriver());
  }

  /** When the cascade update fails after the driver was removed, invoices are
      left naming a driver that no longer exists. */
  lemma DeleteDriverCascadeFailureDangles(inv: Invoice, driver: Driver)
    requires inv.driverId == Some(driver.id) && inv.vehicleId == None
    ensures ReferencesResolve([inv], [driver], [])
    ensures !ReferencesResolve([inv], Filter([driver], NotDriver(driver.id)), [])
  {
    assert [driver][0].id == driver.id;
    assert Filter([driver], NotDriver(driver.id)) == [];
    assert [inv][0].driverId == Some(driver.id);
    assert !DriverExists([], driver.id);
  }

  /** A successful vehicle delete with its cascade keeps every reference
      resolvable, and no invoice names the deleted vehicle any more. */
  lemma DeleteVehicleKeepsReferences(invoices: seq<Invoice>, drivers: seq<Driver>, vehicles: seq<Vehicle>, vehicleId: Id)
    requires ReferencesResolve(invoices, drivers, vehicles)
    ensures var invs := MapWhere(invoices, ByVehicle(vehicleId), ClearVehicle());
            ReferencesResolve(invs, drivers, Filter(vehicles, NotVehicle(vehicleId))) &&
            Count(invs, ByVehicle(vehicleId)) == 0
  {
    var invs := MapWhere(invoices, ByVehicle(vehicleId), ClearVehicle());
    var vs := Filter(vehicles, NotVehicle(vehicleId));
    forall k | 0 <= k < |invs| && invs[k].vehicleId.Some?
      ensures VehicleExists(vs, invs[k].vehicleId.value)
    {
      var id := invs[k].vehicleId.value;
      assert invoices[k].vehicleId == Some(id) && id != vehicleId;
      var j :| 0 <= j < |vehicles| && vehicles[j].id == id;
      assert vehicles[j] in vs;
      var j' :| 0 <= j' < |vs| && vs[j'] == vehicles[j];
    }
    MapWhereClears(invoices, ByVehicle(vehicleId), ClearVehicle());
  }

  /** A second consume right after the first finds nothing. */
  lemma ConsumeTwiceYieldsNothing(notifications: seq<AppNotification>, recipientId: Id)
    ensures UnreadFor(AfterConsume(notifications, recipientId), recipientId) == []
  {
    var after := AfterConsume(notifications, recipientId);
    MapWhereClears(notifications, UnreadOf(recipientId), MarkRead());
    CountIsFilterLength(after, UnreadOf(recipientId));
  }

  /** Consuming one recipient's mailbox leaves every other recipient's unread
      notifications exactly as they were. */
  lemma ConsumeLeavesOthers(notifications: seq<AppNotification>, recipientId: Id, other: Id)
    requires other != recipientId
    ensures UnreadFor(AfterConsume(notifications, recipientId), other) == UnreadFor(notifications, other)
  {
    FilterAfterMapWhere(notifications, UnreadOf(recipientId), MarkRead(), UnreadOf(other));
  }

  /** Consuming changes only the read flag, and only on the entries returned. */
  lemma ConsumeChangesOnlyReadFlags(notifications: seq<AppNotification>, recipientId: Id, k: nat)
    requires k < |notifications|
    ensures var after := AfterConsume(notifications, recipientId);
            |after| == |notifications| &&
            after[k] == (if notifications[k] in UnreadFor(notifications, recipientId)
                         then notifications[k].(read := true) else notifications[k])
  {
  }
}
