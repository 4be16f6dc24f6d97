/** The driver console (components/DriverView.tsx): the driver's invoices split
    into the open route and the history, the start-route button, the full-route
    navigation link, and the delivery screen (`DeliveryAction`) with its frozen
    location and its proof submission. */
module DriverView {
  import opened Base
  import opened JsText
  import opened Types
  import opened Db
  import opened NfeImport

  // ------------------------------------------------------------------ the two lists

  function IsOpen(): Invoice -> bool
  {
    (inv: Invoice) => inv.status != Delivered && inv.status != Failed
  }

  function IsClosed(): Invoice -> bool
  {
    (inv: Invoice) => inv.status == Delivered || inv.status == Failed
  }

  /** The route: the invoices neither DELIVERED nor FAILED, in list order. */
  function PendingList(invoices: seq<Invoice>): seq<Invoice>
  {
    Filter(invoices, IsOpen())
  }

  /** The history: the DELIVERED and FAILED invoices, in list order. */
  function HistoryList(invoices: seq<Invoice>): seq<Invoice>
  {
    Filter(invoices, IsClosed())
  }

  /** Every invoice of the driver is in exactly one of the two lists, by
      whether its status is terminal, and the two lists together are the
      driver's invoices. */
  lemma PartitionIsExact(invoices: seq<Invoice>)
    ensures forall inv :: inv in PendingList(invoices) <==> inv in invoices && !IsTerminal(inv.status)
    ensures forall inv :: inv in HistoryList(invoices) <==> inv in invoices && IsTerminal(inv.status)
    ensures |PendingList(invoices)| + |HistoryList(invoices)| == |invoices|
    ensures multiset(PendingList(invoices)) + multiset(HistoryList(invoices)) == multiset(invoices)
  {
    FilterSplits(invoices, IsOpen(), IsClosed());
  }

  /** The start-route button is shown when some route invoice is PENDING. */
  predicate StartRouteOffered(pending: seq<Invoice>)
  {
    exists i :: 0 <= i < |pending| && pending[i].status == Pending
  }

  /** On the list just loaded from the store, the button is shown exactly when
      `startRoute` would find PENDING invoices to move. */
  lemma StartRouteOfferedIffWork(invoices: seq<Invoice>, driverId: Id)
    ensures StartRouteOffered(PendingList(Filter(invoices, ByDriver(driverId)))) <==>
            Count(invoices, PendingFor(driverId)) > 0
  {
    CountZero(invoices, PendingFor(driverId));
    var pending := PendingList(Filter(invoices, ByDriver(driverId)));
    if StartRouteOffered(pending) {
      var i :| 0 <= i < |pending| && pending[i].status == Pending;
      var k := FilteredTwiceSource(invoices, ByDriver(driverId), IsOpen(), i);
      assert PendingFor(driverId)(invoices[k]);
    }
    if Count(invoices, PendingFor(driverId)) > 0 {
      var k :| 0 <= k < |invoices| && PendingFor(driverId)(invoices[k]);
      WorkRowIsOffered(invoices, driverId, k);
    }
  }

  lemma WorkRowIsOffered(invoices: seq<Invoice>, driverId: Id, k: nat)
    requires k < |invoices| && PendingFor(driverId)(invoices[k])
    ensures StartRouteOffered(PendingList(Filter(invoices, ByDriver(driverId))))
  {
    var mine := Filter(invoices, ByDriver(driverId));
    var pending := PendingList(mine);
    assert invoices[k] in mine;
    assert invoices[k] in pending;
    var i :| 0 <= i < |pending| && pending[i] == invoices[k];
  }

  // ------------------------------------------------------------------ full-route navigation

  datatype Route = Route(destination: string, waypoints: string)

  /** One stop as the link gives it: the address, a space and the zip code. */
  function StopAddress(inv: Invoice): string
  {
    inv.customerAddress + " " + inv.customerZip
  }

  function Stops(invoices: seq<Invoice>): (r: seq<string>)
    ensures |r| == |invoices|
    ensures forall k :: 0 <= k < |invoices| ==> r[k] == StopAddress(invoices[k])
  {
    if invoices == [] then [] else [StopAddress(invoices[0])] + Stops(invoices[1..])
  }

  /** `handleFullRouteNavigation` as written: nothing for an empty route;
      otherwise the last stop is the destination and the earlier ones, in
      order, joined by "|", are the waypoints. */
  function FullRoute(pending: seq<Invoice>): (r: Option<Route>)
    ensures r.None? <==> pending == []
    ensures r.Some? ==> r.value.destination == StopAddress(pending[|pending| - 1])
  {
    if pending == [] then None
    else
      var stops := Stops(pending);
      Some(Route(stops[|stops| - 1], Join(stops[..|stops| - 1], "|")))
  }

  /** When no stop contains "|", the waypoints read back as exactly the stops
      before the destination. */
  lemma FullRouteWaypointsReadBack(pending: seq<Invoice>)
    requires |pending| >= 2
    requires forall k :: 0 <= k < |pending| ==> Free(StopAddress(pending[k]), '|')
    ensures Split(FullRoute(pending).value.waypoints, '|') == Stops(pending)[..|pending| - 1]
  {
    var stops := Stops(pending);
    var parts := stops[..|stops| - 1];
    forall k | 0 <= k < |parts| ensures Free(parts[k], '|') {
      assert parts[k] == StopAddress(pending[k]);
    }
    SplitJoin(parts, '|');
    assert FullRoute(pending).value.waypoints == Join(parts, ['|']);
  }

  /** A stop whose address carries the complementary note added by the XML
      import (" || OBS/LOCAL: ...") is sent as three waypoints, one of them
      empty, where one was meant. */
  lemma NoteSplitsWaypoint(first: Invoice, last: Invoice, base: string, infCpl: string)
    requires HasContent(infCpl)
    requires first.customerAddress == base + NoteSuffix(infCpl)
    requires Free(base, '|') && Free(ToUpper(infCpl) + " " + first.customerZip, '|')
    ensures Split(FullRoute([first, last]).value.waypoints, '|') ==
            [base + " ", "", " OBS/LOCAL: " + ToUpper(infCpl) + " " + first.customerZip]
  {
    NoteSuffixShape(infCpl);
    var t := ToUpper(infCpl) + " " + first.customerZip;
    WaypointsOfTwoStops(first, last);
    NoteRegroups(base, ToUpper(infCpl), first.customerZip);
    MarkerPartsFree();
    FreeConcat(base, " ", '|');
    FreeConcat(" OBS/LOCAL: ", t, '|');
    assert StopAddress(first) == (base + " ") + ['|', '|'] + (" OBS/LOCAL: " + t);
    SplitDoubleSeparator(base + " ", " OBS/LOCAL: " + t, '|');
  }

  /** The note marker is a space, two separators and the label. */
  lemma MarkerPartsFree()
    ensures NOTE_MARKER == " " + ['|', '|'] + " OBS/LOCAL: "
    ensures Free(" ", '|') && Free(" OBS/LOCAL: ", '|')
  {
  }

  lemma NoteRegroups(base: string, note: string, zip: string)
    ensures (base + (NOTE_MARKER + note)) + " " + zip ==
            (base + " ") + ['|', '|'] + (" OBS/LOCAL: " + (note + " " + zip))
    ensures " OBS/LOCAL: " + (note + " " + zip) == " OBS/LOCAL: " + note + " " + zip
  {
    MarkerPartsFree();
  }

  lemma WaypointsOfTwoStops(first: Invoice, last: Invoice)
    ensures FullRoute([first, last]).value.waypoints == StopAddress(first)
  {
    assert Stops([first, last])[..1] == [StopAddress(first)];
  }

  /** `s` with every `c` replaced by `d`. */
  function ReplaceChar(s: string, c: char, d: char): (r: string)
    ensures |r| == |s|
    ensures forall i :: 0 <= i < |s| ==> r[i] == (if s[i] == c then d else s[i])
  {
    if s == [] then [] else [if s[0] == c then d else s[0]] + ReplaceChar(s[1..], c, d)
  }

  /** A stop with the separator replaced by "/", so that it stays one waypoint. */
  function SafeStopAddress(inv: Invoice): (r: string)
    ensures Free(r, '|')
  {
    ReplaceChar(StopAddress(inv), '|', '/')
  }

  function SafeStops(invoices: seq<Invoice>): (r: seq<string>)
    ensures |r| == |invoices|
    ensures forall k :: 0 <= k < |invoices| ==> r[k] == SafeStopAddress(invoices[k])
  {
    if invoices == [] then [] else [SafeStopAddress(invoices[0])] + SafeStops(invoices[1..])
  }

  /** The full route with each stop kept whole: the same destination, and
      waypoints that always read back as one per earlier stop. */
  function SafeFullRoute(pending: seq<Invoice>): (r: Option<Route>)
    ensures r.None? <==> pending == []
    ensures r.Some? ==> r.value.destination == SafeStopAddress(pending[|pending| - 1])
  {
    if pending == [] then None
    else
      var stops := SafeStops(pending);
      Some(Route(stops[|stops| - 1], Join(stops[..|stops| - 1], "|")))
  }

  lemma SafeFullRouteReadsBack(pending: seq<Invoice>)
    requires |pending| >= 2
    ensures Split(SafeFullRoute(pending).value.waypoints, '|') == SafeStops(pending)[..|pending| - 1]
    ensures |Split(SafeFullRoute(pending).value.waypoints, '|')| == |pending| - 1
  {
    var stops := SafeStops(pending);
    SplitJoin(stops[..|stops| - 1], '|');
  }

  /** A stop without "|" is sent unchanged by the corrected route. */
  lemma SafeStopKeepsPlainAddress(inv: Invoice)
    requires Free(StopAddress(inv), '|')
    ensures SafeStopAddress(inv) == StopAddress(inv)
  {
  }

  // ------------------------------------------------------------------ the console

  class DriverConsole {
    const store: Store
    const driverId: Id
    /** The driver's invoices as last loaded. */
    var invoices: seq<Invoice>

    constructor (store: Store, driverId: Id)
      ensures this.store == store && this.driverId == driverId && invoices == []
    {
      this.store := store;
      this.driverId := driverId;
      invoices := [];
    }

    /** `refreshData`: the driver's invoices, or an empty list when the read fails. */
    method Refresh(invoicesFail: bool)
      modifies this`invoices
      ensures invoices == if invoicesFail then [] else Filter(store.invoices, ByDriver(driverId))
      ensures !invoicesFail ==> (StartRouteOffered(PendingList(invoices)) <==> Count(store.invoices, PendingFor(driverId)) > 0)
    {
      invoices := store.GetInvoicesByDriver(driverId, invoicesFail);
      if !invoicesFail {
        StartRouteOfferedIffWork(store.invoices, driverId);
      }
    }

    /** The start-route button, which exists only while the route has a PENDING
        invoice; after the confirmation, the store moves the route and the
        list is reloaded. */
    method PressStartRoute(confirmed: bool, notificationId: Id, now: string,
                           countFails: bool, updateFails: bool, nameFails: bool, notifyFails: bool,
                           invoicesFail: bool)
      modifies this`invoices, store`invoices, store`notifications
      ensures !StartRouteOffered(PendingList(old(invoices))) || !confirmed ==>
        store.invoices == old(store.invoices) && store.notifications == old(store.notifications) && invoices == old(invoices)
      ensures StartRouteOffered(PendingList(old(invoices))) && confirmed && !countFails && !updateFails ==>
        store.invoices == StartRouteRows(old(store.invoices), driverId)
      ensures StartRouteOffered(PendingList(old(invoices))) && confirmed && (countFails || updateFails) ==>
        store.invoices == old(store.invoices)
      ensures StartRouteOffered(PendingList(old(invoices))) && confirmed ==>
        var count := Count(old(store.invoices), PendingFor(driverId));
        store.notifications == old(store.notifications) +
          (if !countFails && count > 0 && !updateFails && !notifyFails
           then [AppNotification(notificationId, ADMIN, "Início de Rota",
                                 RouteStartMessage(AnnouncedName(store.drivers, driverId, nameFails), count), Info, false, now)]
           else [])
      ensures StartRouteOffered(PendingList(old(invoices))) && confirmed ==>
        invoices == if invoicesFail then [] else Filter(store.invoices, ByDriver(driverId))
    {
      if !StartRouteOffered(PendingList(invoices)) || !confirmed {
        return;
      }
      store.StartRoute(driverId, notificationId, now, countFails, updateFails, nameFails, notifyFails);
      if !countFails && !updateFails && Count(old(store.invoices), PendingFor(driverId)) == 0 {
        StartRouteWithoutPending(old(store.invoices), driverId);
      }
      Refresh(invoicesFail);
    }
  }

  // ------------------------------------------------------------------ the delivery screen

  datatype Geo = Geo(lat: real, lng: real)

  /** The frozen location takes the live one only while it is unset. */
  function Latch(frozen: Option<Geo>, live: Option<Geo>): (r: Option<Geo>)
    ensures frozen.Some? ==> r == frozen
  {
    if frozen.None? && live.Some? then live else frozen
  }

  /** The location after a run of live updates. */
  function LatchAll(frozen: Option<Geo>, updates: seq<Option<Geo>>): Option<Geo>
    decreases |updates|
  {
    if updates == [] then frozen else LatchAll(Latch(frozen, updates[0]), updates[1..])
  }

  /** The first known location in a list of readings. */
  function FirstKnown(readings: seq<Option<Geo>>): (r: Option<Geo>)
    ensures r.Some? ==> r in readings
    ensures r.None? <==> forall k :: 0 <= k < |readings| ==> readings[k].None?
  {
    if readings == [] then None
    else if readings[0].Some? then readings[0]
    else FirstKnown(readings[1..])
  }

  /** However many updates arrive, the frozen location is the first location
      known since the screen opened: once set, it never changes. */
  lemma {:induction false} LatchAllIsFirstKnown(frozen: Option<Geo>, updates: seq<Option<Geo>>)
    ensures LatchAll(frozen, updates) == FirstKnown([frozen] + updates)
    decreases |updates|
  {
    if updates != [] {
      LatchAllIsFirstKnown(Latch(frozen, updates[0]), updates[1..]);
      if frozen.None? {
        assert ([frozen] + updates)[1..] == updates;
        assert updates == [updates[0]] + updates[1..];
        if updates[0].None? {
          assert FirstKnown([frozen] + updates) == FirstKnown(updates);
          assert FirstKnown(updates) == FirstKnown(updates[1..]);
        }
      }
    }
  }

  datatype Step = Details | ProofForm | Done

  datatype Refusal = NoEvidence | NoReceiver | NoReason

  /** The reason a submission is refused, if any: a success needs a signature
      or a photo, then a receiver name; a failure needs a reason. */
  function Refused(success: bool, receiverName: string, signature: string, photo: string, finalReason: string): Option<Refusal>
  {
    if success then
      if signature == "" && photo == "" then Some(NoEvidence)
      else if receiverName == "" then Some(NoReceiver)
      else None
    else if finalReason == "" then Some(NoReason)
    else None
  }

  /** A submission goes through exactly when the evidence its outcome needs is there. */
  lemma RefusedIff(success: bool, receiverName: string, signature: string, photo: string, finalReason: string)
    ensures Refused(success, receiverName, signature, photo, finalReason).None? <==>
            (success && (signature != "" || photo != "") && receiverName != "") || (!success && finalReason != "")
  {
  }

  /** The proof a submission saves. */
  function BuildProof(invoiceId: Id, success: bool, receiverName: string, receiverDoc: string, signature: string,
                      photo: string, frozen: Option<Geo>, deliveredAt: string, finalReason: string): DeliveryProof
  {
    DeliveryProof(
      invoiceId := invoiceId,
      receiverName := if success then receiverName else "N/A",
      receiverDoc := if success then receiverDoc else "N/A",
      signatureData := if success then signature else "",
      photoUrl := if success then photo else "",
      photoStubUrl := None,
      returnType := None,
      returnItems := None,
      geoLat := if frozen.Some? then Some(frozen.value.lat) else None,
      geoLong := if frozen.Some? then Some(frozen.value.lng) else None,
      deliveredAt := deliveredAt,
      notes := None,
      failureReason := if success then None else Some(finalReason))
  }

  /** A submission that passed the checks saves a proof for the invoice with
      the frozen location and the delivery time. A success carries the form's
      receiver and evidence, at least a signature or a photo and a named
      receiver; a failure carries "N/A", no evidence and a non-empty reason.
      The store then closes the invoice the way the outcome says: DELIVERED
      for a success, FAILED for a failure. */
  lemma AcceptedProofClosesInvoice(invoiceId: Id, success: bool, receiverName: string, receiverDoc: string,
                                   signature: string, photo: string, frozen: Option<Geo>, deliveredAt: string, finalReason: string)
    requires Refused(success, receiverName, signature, photo, finalReason).None?
    ensures var p := BuildProof(invoiceId, success, receiverName, receiverDoc, signature, photo, frozen, deliveredAt, finalReason);
            && p.invoiceId == invoiceId && p.deliveredAt == deliveredAt
            && (p.geoLat.Some? <==> frozen.Some?) && (p.geoLong.Some? <==> frozen.Some?)
            && (frozen.Some? ==> p.geoLat.value == frozen.value.lat && p.geoLong.value == frozen.value.lng)
            && (success ==>
                  && p.receiverName == receiverName && p.receiverName != ""
                  && p.receiverDoc == receiverDoc
                  && p.signatureData == signature && p.photoUrl == photo
                  && (p.signatureData != "" || p.photoUrl != "")
                  && p.failureReason.None?)
            && (!success ==>
                  && p.receiverName == "N/A" && p.receiverDoc == "N/A"
                  && p.signatureData == "" && p.photoUrl == ""
                  && p.failureReason == Some(finalReason) && finalReason != "")
            && StatusAfterProof(p) == (if success then Delivered else Failed)
  {
  }

  datatype SubmitOutcome = Rejected(refusal: Refusal) | Submitted(proof: DeliveryProof)

  class DeliveryAction {
    const invoice: Invoice
    const store: Store
    var step: Step
    var frozenGeo: Option<Geo>
    var receiverName: string
    var receiverDoc: string
    var signature: string
    var photo: string
    var failureReason: string
    var loading: bool

    /** The screen opens on the details step with the live location, if any, frozen. */
    constructor (invoice: Invoice, store: Store, currentGeo: Option<Geo>)
      ensures this.invoice == invoice && this.store == store
      ensures step == Details && frozenGeo == currentGeo && !loading
      ensures receiverName == "" && receiverDoc == "" && signature == "" && photo == "" && failureReason == ""
    {
      this.invoice := invoice;
      this.store := store;
      step := Details;
      frozenGeo := currentGeo;
      receiverName, receiverDoc, signature, photo, failureReason := "", "", "", "", "";
      loading := false;
    }

    /** The effect that runs when the live location changes. */
    method ObserveLocation(currentGeo: Option<Geo>)
      modifies this`frozenGeo
      ensures frozenGeo == Latch(old(frozenGeo), currentGeo)
      ensures old(frozenGeo).Some? ==> frozenGeo == old(frozenGeo)
    {
      if frozenGeo.None? && currentGeo.Some? {
        frozenGeo := currentGeo;
      }
    }

    /** "Realizar Baixa" on the details step opens the proof form; what was
        typed and the frozen location stay as they are. */
    method OpenProofForm()
      requires step == Details
      modifies this`step
      ensures step == ProofForm
      ensures receiverName == old(receiverName) && receiverDoc == old(receiverDoc) &&
              signature == old(signature) && photo == old(photo) && frozenGeo == old(frozenGeo)
    {
      step := ProofForm;
    }

    /** The back arrow of the proof form returns to the details step, keeping
        what was typed for when the form is opened again. */
    method BackToDetails()
      requires step == ProofForm
      modifies this`step
      ensures step == Details
      ensures receiverName == old(receiverName) && receiverDoc == old(receiverDoc) &&
              signature == old(signature) && photo == old(photo) && frozenGeo == old(frozenGeo)
    {
      step := Details;
    }

    /** `submitDelivery(success, reasonOverride)`: checks, then the proof is
        saved and the screen shows the confirmation, whether or not the store
        accepted the proof. */
    method SubmitDelivery(success: bool, reasonOverride: Option<string>, deliveredAt: string,
                          insertFails: bool, updateFails: bool)
      returns (outcome: SubmitOutcome)
      modifies this`step, this`loading, store`proofs, store`invoices
      ensures var finalReason := OrElse(reasonOverride, failureReason);
              var refusal := Refused(success, receiverName, signature, photo, finalReason);
              && (refusal.Some? ==>
                    outcome == Rejected(refusal.value) && step == old(step) && loading == old(loading) &&
                    store.proofs == old(store.proofs) && store.invoices == old(store.invoices))
              && (refusal.None? ==>
                    outcome == Submitted(BuildProof(invoice.id, success, receiverName, receiverDoc, signature, photo,
                                                    frozenGeo, deliveredAt, finalReason)) &&
                    step == Done && !loading &&
                    store.proofs == (if insertFails then old(store.proofs) else old(store.proofs) + [outcome.proof]) &&
                    store.invoices == (if insertFails || updateFails then old(store.invoices)
                                       else ProofRows(old(store.invoices), outcome.proof)))
    {
      var finalReason := if Present(reasonOverride) then reasonOverride.value else failureReason;
      if success {
        if signature == "" && photo == "" {
          return Rejected(NoEvidence);
        }
        if receiverName == "" {
          return Rejected(NoReceiver);
        }
      } else {
        if finalReason == "" {
          return Rejected(NoReason);
        }
      }
      loading := true;
      var proof := DeliveryProof(
        invoiceId := invoice.id,
        receiverName := if success then receiverName else "N/A",
        receiverDoc := if success then receiverDoc else "N/A",
        signatureData := if success then signature else "",
        photoUrl := if success then photo else "",
        photoStubUrl := None,
        returnType := None,
        returnItems := None,
        geoLat := if frozenGeo.Some? then Some(frozenGeo.value.lat) else None,
        geoLong := if frozenGeo.Some? then Some(frozenGeo.value.lng) else None,
        deliveredAt := deliveredAt,
        notes := None,
        failureReason := if success then None else Some(finalReason));
      store.SaveProof(proof, insertFails, updateFails);
      step := Done;
      loading := false;
      outcome := Submitted(proof);
    }
  }
}
