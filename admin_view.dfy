/** The manager console (components/AdminView.tsx): its derived data (the
    financial dashboard, the search filter) as functions of the loaded lists,
    and its handlers (selection, bulk and single assignment, key and XML
    imports) as methods of an `AdminConsole` that holds the loaded lists and
    talks to the `Store`. */
module AdminView {
  import opened Base
  import opened JsText
  import opened Types
  import opened Db
  import opened SefazApi
  import opened NfeImport

  const RANKING_SIZE: nat := 5

  // ------------------------------------------------------------------ lookups

  function HasStatus(s: DeliveryStatus): Invoice -> bool
  {
    (inv: Invoice) => inv.status == s
  }

  /** `invoices.find(i => i.id === id)`: the first invoice with the id. */
  function FindById(invoices: seq<Invoice>, id: Id): (r: Option<Invoice>)
    ensures r.Some? ==> r.value in invoices && r.value.id == id
    ensures r.None? <==> forall k :: 0 <= k < |invoices| ==> invoices[k].id != id
    ensures r.Some? ==>
      exists k :: 0 <= k < |invoices| && invoices[k] == r.value && forall j :: 0 <= j < k ==> invoices[j].id != id
  {
    if invoices == [] then None
    else if invoices[0].id == id then Some(invoices[0])
    else FindById(invoices[1..], id)
  }

  /** `invoices.some(i => i.access_key === key)`. */
  predicate KeyTaken(invoices: seq<Invoice>, key: string)
  {
    exists k :: 0 <= k < |invoices| && invoices[k].accessKey == key
  }

  /** No two invoices share an access key. */
  predicate UniqueKeys(invoices: seq<Invoice>)
  {
    forall i, j :: 0 <= i < j < |invoices| ==> invoices[i].accessKey != invoices[j].accessKey
  }

  /** An import that passed the duplicate check keeps the keys unique. */
  lemma ImportKeepsKeysUnique(invoices: seq<Invoice>, invoice: Invoice)
    requires UniqueKeys(invoices) && !KeyTaken(invoices, invoice.accessKey)
    ensures UniqueKeys(invoices + [invoice])
  {
    var all := invoices + [invoice];
    forall i, j | 0 <= i < j < |all|
      ensures all[i].accessKey != all[j].accessKey
    {
      if j == |invoices| {
        assert all[i] == invoices[i];
      }
    }
  }

  // ------------------------------------------------------------------ financial dashboard

  /** The sum of the values, `reduce((acc, inv) => acc + inv.value, 0)`. */
  function Total(invoices: seq<Invoice>): int
  {
    if invoices == [] then 0 else invoices[0].value + Total(invoices[1..])
  }

  lemma {:induction false} TotalConcat(a: seq<Invoice>, b: seq<Invoice>)
    ensures Total(a + b) == Total(a) + Total(b)
  {
    if a == [] {
      assert a + b == b;
    } else {
      TotalConcat(a[1..], b);
      assert (a + b)[1..] == a[1..] + b;
    }
  }

  /** The total value of the invoices in one status. */
  function StatusTotal(invoices: seq<Invoice>, s: DeliveryStatus): int
  {
    Total(Filter(invoices, HasStatus(s)))
  }

  /** The status totals are additive over the list and count one invoice by its
      value exactly when it has that status; together these fix the total of
      every list. */
  lemma StatusTotalAdds(a: seq<Invoice>, b: seq<Invoice>, s: DeliveryStatus)
    ensures StatusTotal(a + b, s) == StatusTotal(a, s) + StatusTotal(b, s)
    ensures StatusTotal([], s) == 0
  {
    FilterConcat(a, b, HasStatus(s));
    TotalConcat(Filter(a, HasStatus(s)), Filter(b, HasStatus(s)));
  }

  lemma StatusTotalOne(inv: Invoice, s: DeliveryStatus)
    ensures StatusTotal([inv], s) == if inv.status == s then inv.value else 0
  {
    assert Filter([inv], HasStatus(s)) == if inv.status == s then [inv] else [];
    assert Total([inv]) == inv.value + Total([]);
  }

  datatype RankEntry = RankEntry(id: Id, name: string, value: int, count: nat)

  /** A driver's entry: the value and number of their DELIVERED invoices. */
  function EntryFor(delivered: seq<Invoice>, driver: Driver): RankEntry
  {
    var mine := Filter(delivered, ByDriver(driver.id));
    RankEntry(driver.id, driver.name, Total(mine), |mine|)
  }

  function Entries(delivered: seq<Invoice>, drivers: seq<Driver>): (r: seq<RankEntry>)
    ensures |r| == |drivers|
    ensures forall k :: 0 <= k < |drivers| ==> r[k] == EntryFor(delivered, drivers[k])
  {
    if drivers == [] then [] else [EntryFor(delivered, drivers[0])] + Entries(delivered, drivers[1..])
  }

  function Active(): RankEntry -> bool
  {
    (e: RankEntry) => e.count > 0
  }

  predicate SortedByCount(s: seq<RankEntry>)
  {
    forall i, j :: 0 <= i < j < |s| ==> s[i].count >= s[j].count
  }

  /** Inserts before the first entry with a smaller count: equal counts keep
      their order, as the stable `sort((a, b) => b.count - a.count)` does. */
  function InsertByCount(e: RankEntry, s: seq<RankEntry>): (r: seq<RankEntry>)
    requires SortedByCount(s)
    ensures SortedByCount(r)
    ensures multiset(r) == multiset(s) + multiset{e}
  {
    if s == [] || e.count >= s[0].count then [e] + s
    else
      var rest := InsertByCount(e, s[1..]);
      HeadBoundsInsert(e, s, rest);
      [s[0]] + rest
  }

  /** The head of a sorted list stays in front of whatever a smaller entry's
      insertion into its tail produces. */
  lemma HeadBoundsInsert(e: RankEntry, s: seq<RankEntry>, rest: seq<RankEntry>)
    requires SortedByCount(s) && s != [] && e.count < s[0].count
    requires SortedByCount(rest) && multiset(rest) == multiset(s[1..]) + multiset{e}
    ensures SortedByCount([s[0]] + rest)
    ensures multiset([s[0]] + rest) == multiset(s) + multiset{e}
  {
    forall i | 0 <= i < |rest|
      ensures rest[i].count <= s[0].count
    {
      var x := rest[i];
      assert x in multiset(rest);
      if x != e {
        assert x in multiset(s[1..]);
        var j :| 0 <= j < |s[1..]| && s[1..][j] == x;
        assert s[j + 1] == x;
      }
    }
    var r := [s[0]] + rest;
    forall i, j | 0 <= i < j < |r| ensures r[i].count >= r[j].count {
      if i > 0 { assert r[i] == rest[i - 1]; }
      assert r[j] == rest[j - 1];
    }
    assert s == [s[0]] + s[1..];
  }

  function SortByCount(s: seq<RankEntry>): (r: seq<RankEntry>)
    ensures SortedByCount(r)
    ensures multiset(r) == multiset(s)
  {
    if s == [] then []
    else
      assert s == [s[0]] + s[1..];
      InsertByCount(s[0], SortByCount(s[1..]))
  }

  /** `slice(0, n)`. */
  function Take<T>(s: seq<T>, n: nat): (r: seq<T>)
    ensures |r| <= n && |r| <= |s|
    ensures r == s[..|r|]
  {
    if |s| <= n then s else s[..n]
  }

  datatype FinancialStats = FinancialStats(totalDelivered: int, totalFailed: int, ranking: seq<RankEntry>)

  function Ranking(invoices: seq<Invoice>, drivers: seq<Driver>): seq<RankEntry>
  {
    var delivered := Filter(invoices, HasStatus(Delivered));
    Take(SortByCount(Filter(Entries(delivered, drivers), Active())), RANKING_SIZE)
  }

  function Stats(invoices: seq<Invoice>, drivers: seq<Driver>): FinancialStats
  {
    FinancialStats(StatusTotal(invoices, Delivered), StatusTotal(invoices, Failed), Ranking(invoices, drivers))
  }

  /** The number of a driver's DELIVERED invoices. */
  function DeliveredCount(invoices: seq<Invoice>, driverId: Id): nat
  {
    Count(invoices, Both(HasStatus(Delivered), ByDriver(driverId)))
  }

  lemma EntryCountIsDeliveredCount(invoices: seq<Invoice>, driver: Driver)
    ensures EntryFor(Filter(invoices, HasStatus(Delivered)), driver).count == DeliveredCount(invoices, driver.id)
  {
    FilterFilter(invoices, HasStatus(Delivered), ByDriver(driver.id));
    CountIsFilterLength(invoices, Both(HasStatus(Delivered), ByDriver(driver.id)));
  }

  /** An entry in the first `n` of a sorted list is at least every entry left out. */
  lemma TakeKeepsLargest(sorted: seq<RankEntry>, n: nat, e: RankEntry)
    requires SortedByCount(sorted) && n > 0
    requires e in sorted && e !in Take(sorted, n)
    ensures |Take(sorted, n)| == n && e.count <= Take(sorted, n)[n - 1].count
  {
    var p :| 0 <= p < |sorted| && sorted[p] == e;
    if p < n {
      assert false;
    }
  }

  /** The active entries are entries of listed drivers with a delivery. */
  lemma ActiveEntryOfDriver(delivered: seq<Invoice>, drivers: seq<Driver>, e: RankEntry)
    requires e in Filter(Entries(delivered, drivers), Active())
    ensures e.count > 0
    ensures exists k :: 0 <= k < |drivers| && drivers[k].id == e.id && e == EntryFor(delivered, drivers[k])
  {
    var entries := Entries(delivered, drivers);
    var k :| 0 <= k < |entries| && entries[k] == e;
  }

  /** The ranking: at most five entries, each of a listed driver with a
      positive count equal to that driver's number of DELIVERED invoices, in
      non-increasing count order. */
  lemma RankingProperties(invoices: seq<Invoice>, drivers: seq<Driver>)
    ensures var r := Ranking(invoices, drivers);
            && |r| <= RANKING_SIZE
            && (forall i :: 0 <= i < |r| ==> r[i].count > 0)
            && (forall i, j :: 0 <= i < j < |r| ==> r[i].count >= r[j].count)
            && (forall i :: 0 <= i < |r| ==>
                  exists k :: 0 <= k < |drivers| && drivers[k].id == r[i].id &&
                              r[i].count == DeliveredCount(invoices, drivers[k].id))
  {
    var delivered := Filter(invoices, HasStatus(Delivered));
    var sorted := SortByCount(Filter(Entries(delivered, drivers), Active()));
    var r := Ranking(invoices, drivers);
    assert r == sorted[..|r|];
    forall i | 0 <= i < |r|
      ensures r[i].count > 0
      ensures exists k :: 0 <= k < |drivers| && drivers[k].id == r[i].id &&
                          r[i].count == DeliveredCount(invoices, drivers[k].id)
    {
      assert r[i] == sorted[i];
      SortedMember(Filter(Entries(delivered, drivers), Active()), r[i]);
      ActiveEntryCount(invoices, drivers, delivered, r[i]);
    }
  }

  lemma SortedMember(s: seq<RankEntry>, e: RankEntry)
    requires e in SortByCount(s)
    ensures e in s
  {
    assert e in multiset(SortByCount(s));
  }

  /** An active entry is a listed driver's, with a positive count equal to
      its DELIVERED invoices. */
  lemma ActiveEntryCount(invoices: seq<Invoice>, drivers: seq<Driver>, delivered: seq<Invoice>, e: RankEntry)
    requires delivered == Filter(invoices, HasStatus(Delivered))
    requires e in Filter(Entries(delivered, drivers), Active())
    ensures e.count > 0
    ensures exists k :: 0 <= k < |drivers| && drivers[k].id == e.id && e.count == DeliveredCount(invoices, drivers[k].id)
  {
    ActiveEntryOfDriver(delivered, drivers, e);
    var k :| 0 <= k < |drivers| && drivers[k].id == e.id && e == EntryFor(delivered, drivers[k]);
    EntryCountIsDeliveredCount(invoices, drivers[k]);
  }

  /** A driver with deliveries whose entry is not in the ranking finds the
      ranking full and has no more deliveries than its last entry. */
  lemma RankingIsTop(invoices: seq<Invoice>, drivers: seq<Driver>, k: nat)
    requires k < |drivers| && DeliveredCount(invoices, drivers[k].id) > 0
    requires EntryFor(Filter(invoices, HasStatus(Delivered)), drivers[k]) !in Ranking(invoices, drivers)
    ensures |Ranking(invoices, drivers)| == RANKING_SIZE
    ensures DeliveredCount(invoices, drivers[k].id) <= Ranking(invoices, drivers)[RANKING_SIZE - 1].count
  {
    var delivered := Filter(invoices, HasStatus(Delivered));
    var entries := Entries(delivered, drivers);
    var sorted := SortByCount(Filter(entries, Active()));
    var active := Filter(entries, Active());
    var e := EntryFor(delivered, drivers[k]);
    EntryCountIsDeliveredCount(invoices, drivers[k]);
    assert e in entries by { assert entries[k] == e; }
    assert Active()(e);
    assert e in active;
    assert e in multiset(active);
    assert e in sorted;
    assert Ranking(invoices, drivers) == Take(sorted, RANKING_SIZE);
    TakeKeepsLargest(sorted, RANKING_SIZE, e);
  }

  // ------------------------------------------------------------------ search

  /** The word each status is searched by. */
  function StatusWord(s: DeliveryStatus): string
  {
    match s
    case Pending => "pendente"
    case InProgress => "rota"
    case Delivered => "entregue"
    case Failed => "devolvido"
  }

  /** The search predicate: everything for an empty term; otherwise the
      lower-cased term found in the number, the lower-cased customer name, the
      value's text, the access key or the status word. */
  function Matches(term: string): Invoice -> bool
  {
    (inv: Invoice) =>
      term == "" ||
      var t := ToLower(term);
      Contains(inv.number, t) || Contains(ToLower(inv.customerName), t) ||
      Contains(CentsText(inv.value), t) || Contains(inv.accessKey, t) ||
      Contains(StatusWord(inv.status), t)
  }

  function FilteredInvoices(invoices: seq<Invoice>, term: string): seq<Invoice>
  {
    Filter(invoices, Matches(term))
  }

  lemma FilterWithoutTermKeepsAll(invoices: seq<Invoice>)
    ensures FilteredInvoices(invoices, "") == invoices
  {
    FilterKeepsAll(invoices, Matches(""));
  }

  /** Searching a status word finds every invoice in that status. */
  lemma SearchFindsStatus(invoices: seq<Invoice>, s: DeliveryStatus)
    ensures forall inv :: inv in invoices && inv.status == s ==> inv in FilteredInvoices(invoices, StatusWord(s))
  {
    forall inv | inv in invoices && inv.status == s
      ensures inv in FilteredInvoices(invoices, StatusWord(s))
    {
      StatusWordMatches(inv);
    }
  }

  lemma StatusWordMatches(inv: Invoice)
    ensures Matches(StatusWord(inv.status))(inv)
  {
    var w := StatusWord(inv.status);
    StatusWordIsLower(inv.status);
    LowerWordUnchanged(w);
    ContainsItself(w);
  }

  lemma StatusWordIsLower(s: DeliveryStatus)
    ensures forall i :: 0 <= i < |StatusWord(s)| ==> 'a' <= StatusWord(s)[i] <= 'z'
  {
  }

  /** The search does not depend on the case of the term. */
  lemma SearchIgnoresTermCase(invoices: seq<Invoice>, term: string)
    ensures FilteredInvoices(invoices, ToLower(term)) == FilteredInvoices(invoices, term)
  {
    ToLowerIdempotent(term);
    assert Matches(ToLower(term)) == Matches(term);
  }

  // ------------------------------------------------------------------ selection

  function Toggled(selected: set<Id>, id: Id): (r: set<Id>)
    ensures id in r <==> id !in selected
    ensures forall x :: x != id ==> (x in r <==> x in selected)
  {
    if id in selected then selected - {id} else selected + {id}
  }

  /** Toggling the same id twice restores the selection. */
  lemma ToggledTwice(selected: set<Id>, id: Id)
    ensures Toggled(Toggled(selected, id), id) == selected
  {
  }

  function IdsOf(invoices: seq<Invoice>): (r: set<Id>)
    ensures forall id :: id in r <==> exists k :: 0 <= k < |invoices| && invoices[k].id == id
  {
    set k | 0 <= k < |invoices| :: invoices[k].id
  }

  // ------------------------------------------------------------------ assignment

  /** The driver a bulk assignment writes: the chosen one, else the invoice's own. */
  function BulkDriverFor(current: Invoice, bulkDriver: string): Option<Id>
  {
    if bulkDriver != "" then Some(bulkDriver) else current.driverId
  }

  function BulkVehicleFor(current: Invoice, bulkVehicle: string): Option<Id>
  {
    if bulkVehicle != "" then Some(bulkVehicle) else current.vehicleId
  }

  /** A store row after a bulk assignment that went through for the ids in
      `written`, computed from the console's copy `local` of the invoices. */
  function BulkRow(local: seq<Invoice>, row: Invoice, written: set<Id>, bulkDriver: string, bulkVehicle: string): (r: Invoice)
    ensures r.id == row.id
  {
    match FindById(local, row.id)
    case None => row
    case Some(current) =>
      if row.id in written then Assign(BulkDriverFor(current, bulkDriver), BulkVehicleFor(current, bulkVehicle))(row) else row
  }

  /** One run of the bulk assignment: the loaded list, the chosen driver and
      vehicle, the id each notification gets, and the invoice ids for which
      each store call fails (the read-back, the update, the notification insert). */
  datatype BulkRun = BulkRun(local: seq<Invoice>, driver: string, vehicle: string, noteIdFor: Id -> Id, now: string,
                             selectFails: set<Id>, updateFails: set<Id>, notifyFails: set<Id>)

  /** The ids among `ids` that are in the loaded list and whose update goes through. */
  function BulkWritten(run: BulkRun, ids: set<Id>): set<Id>
  {
    set id | id in ids && FindById(run.local, id).Some? && id !in run.updateFails
  }

  /** The "Nova Carga" the bulk update of `id` publishes, read against the
      store rows `rows` as they were before the bulk update; none for an id
      missing from the loaded list, which is skipped. */
  function BulkNote(run: BulkRun, rows: seq<Invoice>, id: Id): Option<AppNotification>
  {
    match FindById(run.local, id)
    case None => None
    case Some(current) =>
      NewCargoNote(rows, id, BulkDriverFor(current, run.driver), run.noteIdFor(id), run.now, id in run.selectFails, id in run.notifyFails)
  }

  /** The notifications bulk updates in the order `order` publish, in that order. */
  function BulkNotes(run: BulkRun, rows: seq<Invoice>, order: seq<Id>): seq<AppNotification>
    decreases |order|
  {
    if order == [] then []
    else BulkNotes(run, rows, order[..|order| - 1]) + Appended(BulkNote(run, rows, order[|order| - 1]))
  }

  /** The ids an order lists. */
  function Elements(order: seq<Id>): set<Id>
    decreases |order|
  {
    if order == [] then {} else Elements(order[..|order| - 1]) + {order[|order| - 1]}
  }

  lemma {:induction false} ElementsAreMembers(order: seq<Id>)
    ensures forall x :: x in Elements(order) <==> x in order
    decreases |order|
  {
    if order != [] {
      var init := order[..|order| - 1];
      ElementsAreMembers(init);
      assert order == init + [order[|order| - 1]];
    }
  }

  /** The store after the bulk updates of the ids of `done`, made one at a time
      in the order `order`, starting from the rows `rows0` and the
      notifications `notes0`: the rows of the written ids carry the
      assignment, and the notifications those updates publish are appended. */
  ghost predicate BulkProgress(run: BulkRun, rows0: seq<Invoice>, notes0: seq<AppNotification>,
                               rows: seq<Invoice>, notes: seq<AppNotification>,
                               done: set<Id>, written: set<Id>, order: seq<Id>)
  {
    && written == BulkWritten(run, done)
    && |rows| == |rows0|
    && (forall k :: 0 <= k < |rows0| ==> rows[k] == BulkRow(run.local, rows0[k], written, run.driver, run.vehicle))
    && |order| == |done| && Elements(order) == done
    && notes == notes0 + BulkNotes(run, rows0, order)
  }

  /** Store rows that keep their ids, and are untouched wherever they carry
      `id`, read back the same rows for `id`: a bulk update of other ids does
      not change what `assignLogistics` reads for this one. */
  lemma {:induction false} SameRowsForId(a: seq<Invoice>, b: seq<Invoice>, id: Id)
    requires |a| == |b|
    requires forall k :: 0 <= k < |a| ==> a[k].id == b[k].id && (b[k].id == id ==> a[k] == b[k])
    ensures Filter(a, IsInvoice(id)) == Filter(b, IsInvoice(id))
  {
    if a != [] {
      SameRowsForId(a[1..], b[1..], id);
    }
  }

  /** Store rows a bulk update has written for the ids of `written` only read
      back the original invoice for any other id, so the update of such an id
      publishes the notification `BulkNote` names. */
  lemma BulkRowsKeepOthers(run: BulkRun, rows0: seq<Invoice>, rows: seq<Invoice>, written: set<Id>, id: Id, current: Invoice)
    requires |rows| == |rows0| && id !in written && FindById(run.local, id) == Some(current)
    requires forall k :: 0 <= k < |rows0| ==> rows[k] == BulkRow(run.local, rows0[k], written, run.driver, run.vehicle)
    ensures NewCargoNote(rows, id, BulkDriverFor(current, run.driver), run.noteIdFor(id), run.now,
                         id in run.selectFails, id in run.notifyFails) == BulkNote(run, rows0, id)
  {
    SameRowsForId(rows, rows0, id);
    assert CurrentInvoice(rows, id) == CurrentInvoice(rows0, id);
  }

  /** The bookkeeping of one more id: the written set, the order and the
      notifications grow by that id's share. */
  lemma BulkProgressStep(run: BulkRun, rows0: seq<Invoice>, notes0: seq<AppNotification>,
                         notes: seq<AppNotification>, done: set<Id>, written: set<Id>, order: seq<Id>, id: Id)
    requires written == BulkWritten(run, done) && id !in done
    requires |order| == |done| && Elements(order) == done
    requires notes == notes0 + BulkNotes(run, rows0, order)
    ensures BulkWritten(run, done + {id}) ==
      written + (if FindById(run.local, id).Some? && id !in run.updateFails then {id} else {})
    ensures |order + [id]| == |done + {id}| && Elements(order + [id]) == done + {id}
    ensures notes + Appended(BulkNote(run, rows0, id)) == notes0 + BulkNotes(run, rows0, order + [id])
  {
    BulkWrittenStep(run, done, id);
    ElementsStep(order, id);
    BulkNotesStep(run, rows0, notes0, order, id);
  }

  lemma BulkWrittenStep(run: BulkRun, done: set<Id>, id: Id)
    ensures BulkWritten(run, done + {id}) ==
      BulkWritten(run, done) + (if FindById(run.local, id).Some? && id !in run.updateFails then {id} else {})
  {
  }

  lemma ElementsStep(order: seq<Id>, id: Id)
    ensures Elements(order + [id]) == Elements(order) + {id}
  {
    assert (order + [id])[..|order|] == order;
  }

  lemma BulkNotesStep(run: BulkRun, rows0: seq<Invoice>, notes0: seq<AppNotification>, order: seq<Id>, id: Id)
    ensures notes0 + BulkNotes(run, rows0, order) + Appended(BulkNote(run, rows0, id)) ==
            notes0 + BulkNotes(run, rows0, order + [id])
  {
    ConcatAssociates(notes0, BulkNotes(run, rows0, order), Appended(BulkNote(run, rows0, id)));
    assert (order + [id])[..|order|] == order;
  }

  lemma BulkProgressStart(run: BulkRun, rows0: seq<Invoice>, notes0: seq<AppNotification>)
    ensures BulkProgress(run, rows0, notes0, rows0, notes0, {}, {}, [])
  {
    assert BulkWritten(run, {}) == {};
  }

  /** The store after `assignLogistics` for one more id of the loaded list
      is the bulk progress with that id added. */
  lemma BulkProgressAssigned(run: BulkRun, rows0: seq<Invoice>, notes0: seq<AppNotification>,
                             rows: seq<Invoice>, notes: seq<AppNotification>, rows': seq<Invoice>, notes': seq<AppNotification>,
                             done: set<Id>, written: set<Id>, order: seq<Id>, id: Id, current: Invoice)
    requires BulkProgress(run, rows0, notes0, rows, notes, done, written, order) && id !in done
    requires FindById(run.local, id) == Some(current)
    requires var d, v := BulkDriverFor(current, run.driver), BulkVehicleFor(current, run.vehicle);
      && rows' == (if id in run.updateFails then rows else AssignRows(rows, id, d, v))
      && notes' == notes + Appended(NewCargoNote(rows, id, d, run.noteIdFor(id), run.now, id in run.selectFails, id in run.notifyFails))
    ensures BulkProgress(run, rows0, notes0, rows', notes', done + {id},
                         if id in run.updateFails then written else written + {id}, order + [id])
  {
    BulkProgressStep(run, rows0, notes0, notes, done, written, order, id);
    BulkRowsKeepOthers(run, rows0, rows, written, id, current);
    BulkRowsAssigned(run, rows0, rows, rows', written, id, current);
  }

  /** The rows part of `BulkProgressAssigned`. */
  lemma BulkRowsAssigned(run: BulkRun, rows0: seq<Invoice>, rows: seq<Invoice>, rows': seq<Invoice>,
                         written: set<Id>, id: Id, current: Invoice)
    requires |rows| == |rows0| && id !in written && FindById(run.local, id) == Some(current)
    requires forall k :: 0 <= k < |rows0| ==> rows[k] == BulkRow(run.local, rows0[k], written, run.driver, run.vehicle)
    requires rows' == if id in run.updateFails then rows
                      else AssignRows(rows, id, BulkDriverFor(current, run.driver), BulkVehicleFor(current, run.vehicle))
    ensures |rows'| == |rows0|
    ensures forall k :: 0 <= k < |rows0| ==>
      rows'[k] == BulkRow(run.local, rows0[k], if id in run.updateFails then written else written + {id}, run.driver, run.vehicle)
  {
    var written' := if id in run.updateFails then written else written + {id};
    forall k | 0 <= k < |rows0|
      ensures rows'[k] == BulkRow(run.local, rows0[k], written', run.driver, run.vehicle)
    {
      BulkRowAssigned(run, rows0[k], rows[k], written, id, current);
    }
  }

  /** One row of `BulkRowsAssigned`. */
  lemma BulkRowAssigned(run: BulkRun, row0: Invoice, row: Invoice, written: set<Id>, id: Id, current: Invoice)
    requires id !in written && FindById(run.local, id) == Some(current)
    requires row == BulkRow(run.local, row0, written, run.driver, run.vehicle)
    ensures var d, v := BulkDriverFor(current, run.driver), BulkVehicleFor(current, run.vehicle);
      (if id in run.updateFails || !IsInvoice(id)(row) then row else Assign(d, v)(row)) ==
      BulkRow(run.local, row0, if id in run.updateFails then written else written + {id}, run.driver, run.vehicle)
  {
    if row0.id == id {
      assert row == row0;
    }
  }

  /** An id missing from the loaded list is skipped. */
  lemma BulkProgressSkipped(run: BulkRun, rows0: seq<Invoice>, notes0: seq<AppNotification>,
                            rows: seq<Invoice>, notes: seq<AppNotification>,
                            done: set<Id>, written: set<Id>, order: seq<Id>, id: Id)
    requires BulkProgress(run, rows0, notes0, rows, notes, done, written, order) && id !in done
    requires FindById(run.local, id).None?
    ensures BulkProgress(run, rows0, notes0, rows, notes, done + {id}, written, order + [id])
  {
    BulkProgressStep(run, rows0, notes0, notes, done, written, order, id);
  }

  /** A bulk assignment of only a vehicle still writes the invoice's own
      driver, so a delivered invoice with a driver goes back to PENDING:
      nothing in the bulk path guards delivered invoices. */
  lemma BulkVehicleOnlyReopens(current: Invoice, bulkVehicle: string)
    requires current.status == Delivered && Present(current.driverId) && bulkVehicle != ""
    ensures Assign(BulkDriverFor(current, ""), BulkVehicleFor(current, bulkVehicle))(current).status == Pending
    ensures Assign(BulkDriverFor(current, ""), BulkVehicleFor(current, bulkVehicle))(current).driverId == current.driverId
  {
  }

  /** The id written for one select box: `value || null` for the field being
      changed, `inv.<field> || null` for the other one. */
  function NonEmpty(o: Option<Id>): (r: Option<Id>)
    ensures r.Some? <==> Present(o)
    ensures r.Some? ==> r == o
  {
    if Present(o) then o else None
  }

  datatype LogisticsField = DriverField | VehicleField

  function LogisticsDriver(current: Invoice, field: LogisticsField, value: string): Option<Id>
  {
    if field == DriverField then NonEmpty(Some(value)) else NonEmpty(current.driverId)
  }

  function LogisticsVehicle(current: Invoice, field: LogisticsField, value: string): Option<Id>
  {
    if field == VehicleField then NonEmpty(Some(value)) else NonEmpty(current.vehicleId)
  }

  /** The select boxes are disabled for DELIVERED invoices only. */
  predicate LogisticsEditable(inv: Invoice)
  {
    inv.status != Delivered
  }

  /** Changing only the vehicle of an invoice that has a driver resends that
      driver, which resets the status to PENDING; a FAILED invoice, whose
      boxes stay enabled, is reopened this way. */
  lemma VehicleChangeReopens(current: Invoice, value: string)
    requires Present(current.driverId)
    ensures var after := Assign(LogisticsDriver(current, VehicleField, value), LogisticsVehicle(current, VehicleField, value))(current);
            after.status == Pending && after.driverId == current.driverId &&
            (value == "" ==> after.vehicleId == None) && (value != "" ==> after.vehicleId == Some(value))
    ensures current.status == Failed ==> LogisticsEditable(current)
  {
  }

  /** Clearing the driver box sends no driver, and the status is then kept. */
  lemma ClearingDriverKeepsStatus(current: Invoice)
    ensures var after := Assign(LogisticsDriver(current, DriverField, ""), LogisticsVehicle(current, DriverField, ""))(current);
            after.driverId == None && after.status == current.status &&
            after.vehicleId == NonEmpty(current.vehicleId)
  {
  }

  // ------------------------------------------------------------------ the console

  datatype BulkOutcome = NothingSelected | NoTarget | Applied(written: set<Id>)

  datatype ImportOutcome =
    | LookupRefused(message: string)
    | XmlRejected(error: ImportError)
    | Duplicate(number: string)
    | Imported(invoice: Invoice)

  class AdminConsole {
    const store: Store
    /** The lists as last loaded from the store. */
    var invoices: seq<Invoice>
    var drivers: seq<Driver>
    var selected: set<Id>
    var searchTerm: string
    var bulkDriver: string
    var bulkVehicle: string
    var showScanner: bool

    constructor (store: Store)
      ensures this.store == store
      ensures invoices == [] && drivers == [] && selected == {} && searchTerm == ""
      ensures bulkDriver == "" && bulkVehicle == "" && !showScanner
    {
      this.store := store;
      invoices, drivers, selected, searchTerm := [], [], {}, "";
      bulkDriver, bulkVehicle, showScanner := "", "", false;
    }

    /** `refreshData`: each list read failing gives an empty list. */
    method Refresh(invoicesFail: bool, driversFail: bool)
      modifies this`invoices, this`drivers
      ensures invoices == if invoicesFail then [] else store.invoices
      ensures drivers == if driversFail then [] else store.drivers
    {
      invoices := if invoicesFail then [] else store.invoices;
      drivers := if driversFail then [] else store.drivers;
    }

    method ToggleSelectOne(id: Id)
      modifies this`selected
      ensures selected == Toggled(old(selected), id)
    {
      if id in selected {
        selected := selected - {id};
      } else {
        selected := selected + {id};
      }
    }

    /** Empties a non-empty selection; otherwise selects exactly the invoices
        the current search shows. */
    method ToggleSelectAll()
      modifies this`selected
      ensures old(selected) != {} ==> selected == {}
      ensures old(selected) == {} ==>
        forall id :: id in selected <==> exists inv :: inv in FilteredInvoices(invoices, searchTerm) && inv.id == id
    {
      if selected != {} {
        selected := {};
      } else {
        var shown := FilteredInvoices(invoices, searchTerm);
        selected := IdsOf(shown);
        forall id | id in selected
          ensures exists inv :: inv in shown && inv.id == id
        {
          var k :| 0 <= k < |shown| && shown[k].id == id;
          assert shown[k] in shown;
        }
      }
    }

    /** Assigns the chosen driver and/or vehicle to every selected invoice found
        in the loaded list, keeping the invoice's own value for the one not
        chosen; then reloads and clears the selection and the choices. Each
        store call may fail on its own (`selectFails`, `updateFails`,
        `notifyFails`, per id): `written` is exactly the selected, loaded ids
        whose update went through. The order of the updates is not fixed, so
        the notifications are stated as a set of appended rows. */
    method ApplyBulkAssignment(noteIdFor: Id -> Id, now: string,
                               selectFails: set<Id>, updateFails: set<Id>, notifyFails: set<Id>,
                               invoicesFail: bool, driversFail: bool)
      returns (outcome: BulkOutcome)
      modifies this`selected, this`bulkDriver, this`bulkVehicle, this`invoices, this`drivers
      modifies store`invoices, store`notifications
      ensures old(selected) == {} ==> outcome == NothingSelected
      ensures old(selected) != {} && old(bulkDriver) == "" && old(bulkVehicle) == "" ==> outcome == NoTarget
      ensures !outcome.Applied? ==>
        && store.invoices == old(store.invoices) && store.notifications == old(store.notifications)
        && selected == old(selected) && bulkDriver == old(bulkDriver) && bulkVehicle == old(bulkVehicle)
        && invoices == old(invoices) && drivers == old(drivers)
      ensures outcome.Applied? ==>
        && outcome.written == (set id | id in old(selected) && FindById(old(invoices), id).Some? && id !in updateFails)
        && |store.invoices| == |old(store.invoices)|
        && (forall k :: 0 <= k < |store.invoices| ==>
              store.invoices[k] == BulkRow(old(invoices), old(store.invoices)[k], outcome.written, old(bulkDriver), old(bulkVehicle)))
        && selected == {} && bulkDriver == "" && bulkVehicle == ""
        && invoices == (if invoicesFail then [] else store.invoices)
        && drivers == (if driversFail then [] else store.drivers)
      ensures outcome.Applied? ==>
        var run := BulkRun(old(invoices), old(bulkDriver), old(bulkVehicle), noteIdFor, now, selectFails, updateFails, notifyFails);
        exists order: seq<Id> ::
          && |order| == |old(selected)| && (forall id :: id in order <==> id in old(selected))
          && store.notifications == old(store.notifications) + BulkNotes(run, old(store.invoices), order)
    {
      if selected == {} {
        return NothingSelected;
      }
      if bulkDriver == "" && bulkVehicle == "" {
        return NoTarget;
      }
      ghost var order;
      var written;
      written, order := AssignEach(BulkRun(invoices, bulkDriver, bulkVehicle, noteIdFor, now, selectFails, updateFails, notifyFails),
                                   selected);
      ElementsAreMembers(order);
      Refresh(invoicesFail, driversFail);
      selected := {};
      bulkDriver := "";
      bulkVehicle := "";
      outcome := Applied(written);
    }

    /** The store updates of a bulk assignment, one id of `ids` at a time in
        some order `order`: the ids of the loaded list are updated with the
        chosen driver and vehicle, the others skipped. */
    method AssignEach(run: BulkRun, ids: set<Id>) returns (written: set<Id>, ghost order: seq<Id>)
      modifies store`invoices, store`notifications
      ensures BulkProgress(run, old(store.invoices), old(store.notifications), store.invoices, store.notifications,
                           ids, written, order)
    {
      written := {};
      ghost var rows0, notes0 := store.invoices, store.notifications;
      var done: set<Id> := {};
      order := [];
      BulkProgressStart(run, rows0, notes0);
      while done != ids
        invariant done <= ids
        invariant BulkProgress(run, rows0, notes0, store.invoices, store.notifications, done, written, order)
        decreases ids - done
      {
        assert ids - done != {};
        var id :| id in ids - done;
        written, order := AssignNext(run, rows0, notes0, done, written, order, id);
        done := done + {id};
      }
    }

    /** The bulk update of one id not yet processed: skipped when the loaded
        list lacks it, otherwise `assignLogistics` with the chosen driver and
        vehicle, or the invoice's own where none was chosen. */
    method AssignNext(run: BulkRun, ghost rows0: seq<Invoice>, ghost notes0: seq<AppNotification>,
                      ghost done: set<Id>, written: set<Id>, ghost order: seq<Id>, id: Id)
      returns (written': set<Id>, ghost order': seq<Id>)
      requires id !in done
      requires BulkProgress(run, rows0, notes0, store.invoices, store.notifications, done, written, order)
      modifies store`invoices, store`notifications
      ensures BulkProgress(run, rows0, notes0, store.invoices, store.notifications, done + {id}, written', order')
    {
      order' := order + [id];
      var current := FindById(run.local, id);
      if current.None? {
        BulkProgressSkipped(run, rows0, notes0, store.invoices, store.notifications, done, written, order, id);
        return written, order';
      }
      ghost var rows, notes := store.invoices, store.notifications;
      store.AssignLogistics(id, BulkDriverFor(current.value, run.driver), BulkVehicleFor(current.value, run.vehicle),
                            run.noteIdFor(id), run.now, id in run.selectFails, id in run.updateFails, id in run.notifyFails);
      written' := if id in run.updateFails then written else written + {id};
      BulkProgressAssigned(run, rows0, notes0, rows, notes, store.invoices, store.notifications,
                           done, written, order, id, current.value);
    }

    /** A change of one select box: the invoice must be in the loaded list;
        the changed field gets the chosen id (none for the empty choice), the
        other field is resent as it was; then the lists are reloaded. */
    method HandleLogisticsUpdate(invoiceId: Id, field: LogisticsField, value: string, noteId: Id, now: string,
                                 selectFails: bool, updateFails: bool, notifyFails: bool,
                                 invoicesFail: bool, driversFail: bool)
      modifies this`invoices, this`drivers, store`invoices, store`notifications
      ensures var current := FindById(old(invoices), invoiceId);
              store.invoices ==
                if current.None? || updateFails then old(store.invoices)
                else AssignRows(old(store.invoices), invoiceId,
                                LogisticsDriver(current.value, field, value), LogisticsVehicle(current.value, field, value))
      ensures FindById(old(invoices), invoiceId).None? ==>
        store.notifications == old(store.notifications) && invoices == old(invoices) && drivers == old(drivers)
      ensures var current := FindById(old(invoices), invoiceId);
              current.Some? ==>
                && store.notifications == old(store.notifications) +
                     Appended(NewCargoNote(old(store.invoices), invoiceId, LogisticsDriver(current.value, field, value),
                                           noteId, now, selectFails, notifyFails))
                && invoices == (if invoicesFail then [] else store.invoices)
                && drivers == (if driversFail then [] else store.drivers)
    {
      var current := FindById(invoices, invoiceId);
      if current.None? {
        return;
      }
      var inv := current.value;
      var newDriverId := if field == DriverField then Some(value) else inv.driverId;
      var newVehicleId := if field == VehicleField then Some(value) else inv.vehicleId;
      store.AssignLogistics(invoiceId, NonEmpty(newDriverId), NonEmpty(newVehicleId), noteId, now,
                            selectFails, updateFails, notifyFails);
      Refresh(invoicesFail, driversFail);
    }

    /** Adds the invoice unless the loaded list already has its access key. */
    method AddUnlessDuplicate(invoice: Invoice, insertFails: bool, invoicesFail: bool, driversFail: bool)
      returns (added: bool)
      modifies this`invoices, this`drivers, store`invoices
      ensures added <==> !KeyTaken(old(invoices), invoice.accessKey)
      ensures store.invoices == if added && !insertFails then old(store.invoices) + [invoice] else old(store.invoices)
      ensures !added ==> invoices == old(invoices) && drivers == old(drivers)
      ensures added ==>
        invoices == (if invoicesFail then [] else store.invoices) && drivers == (if driversFail then [] else store.drivers)
      ensures old(invoices) == old(store.invoices) && UniqueKeys(old(store.invoices)) ==> UniqueKeys(store.invoices)
    {
      if exists k :: 0 <= k < |invoices| && invoices[k].accessKey == invoice.accessKey {
        return false;
      }
      if invoices == store.invoices && UniqueKeys(store.invoices) {
        ImportKeepsKeysUnique(store.invoices, invoice);
      }
      store.AddInvoice(invoice, insertFails);
      Refresh(invoicesFail, driversFail);
      added := true;
    }

    /** `processAccessKey`: the public lookup, then the duplicate check and the insert. */
    method ProcessAccessKey(key: string, reply: Reply, id: Id, createdAt: string,
                            insertFails: bool, invoicesFail: bool, driversFail: bool)
      returns (outcome: ImportOutcome)
      modifies this`invoices, this`drivers, store`invoices
      ensures var lookup := FetchNFeData(key, reply, id, createdAt);
              && (lookup.Refused? ==> outcome == LookupRefused(lookup.message) && store.invoices == old(store.invoices))
              && (lookup.Found? && KeyTaken(old(invoices), lookup.invoice.accessKey) ==>
                    outcome == Duplicate(lookup.invoice.number) && store.invoices == old(store.invoices))
              && (lookup.Found? && !KeyTaken(old(invoices), lookup.invoice.accessKey) ==>
                    outcome == Imported(lookup.invoice) &&
                    store.invoices == if insertFails then old(store.invoices) else old(store.invoices) + [lookup.invoice])
      ensures !outcome.Imported? ==> invoices == old(invoices) && drivers == old(drivers)
      ensures outcome.Imported? ==>
        invoices == (if invoicesFail then [] else store.invoices) && drivers == (if driversFail then [] else store.drivers)
      ensures old(invoices) == old(store.invoices) && UniqueKeys(old(store.invoices)) ==> UniqueKeys(store.invoices)
    {
      var lookup := FetchNFeData(key, reply, id, createdAt);
      if lookup.Refused? {
        return LookupRefused(lookup.message);
      }
      var added := AddUnlessDuplicate(lookup.invoice, insertFails, invoicesFail, driversFail);
      outcome := if added then Imported(lookup.invoice) else Duplicate(lookup.invoice.number);
    }

    /** A scanned code is used only when its digits make 44; the scanner is
        then closed and the key processed. Any other read changes nothing. */
    method OnScanSuccess(decoded: string, reply: Reply, id: Id, createdAt: string,
                         insertFails: bool, invoicesFail: bool, driversFail: bool)
      returns (outcome: Option<ImportOutcome>)
      modifies this`invoices, this`drivers, this`showScanner, store`invoices
      ensures outcome.Some? <==> |OnlyDigits(decoded)| == KEY_LENGTH
      ensures outcome.None? ==>
        && store.invoices == old(store.invoices) && showScanner == old(showScanner)
        && invoices == old(invoices) && drivers == old(drivers)
      ensures outcome.Some? ==> !showScanner && outcome.value != LookupRefused(INVALID_KEY_MESSAGE)
      ensures outcome.Some? ==>
        var lookup := FetchNFeData(OnlyDigits(decoded), reply, id, createdAt);
        && (lookup.Refused? ==> outcome.value == LookupRefused(lookup.message) && store.invoices == old(store.invoices))
        && (lookup.Found? && KeyTaken(old(invoices), lookup.invoice.accessKey) ==>
              outcome.value == Duplicate(lookup.invoice.number) && store.invoices == old(store.invoices))
        && (lookup.Found? && !KeyTaken(old(invoices), lookup.invoice.accessKey) ==>
              outcome.value == Imported(lookup.invoice) &&
              store.invoices == if insertFails then old(store.invoices) else old(store.invoices) + [lookup.invoice])
        && (!outcome.value.Imported? ==> invoices == old(invoices) && drivers == old(drivers))
        && (outcome.value.Imported? ==>
              invoices == (if invoicesFail then [] else store.invoices) && drivers == (if driversFail then [] else store.drivers))
      ensures old(invoices) == old(store.invoices) && UniqueKeys(old(store.invoices)) ==> UniqueKeys(store.invoices)
    {
      var cleanKey := OnlyDigits(decoded);
      if |cleanKey| != KEY_LENGTH {
        return None;
      }
      showScanner := false;
      OnlyDigitsKeepsDigits(cleanKey);
      var r := ProcessAccessKey(cleanKey, reply, id, createdAt, insertFails, invoicesFail, driversFail);
      outcome := Some(r);
    }

    /** The XML upload: extraction, then the duplicate check against the
        loaded list and the insert. */
    method HandleFileUpload(doc: XmlDoc, idMs: nat, keyMs: nat, createdAt: string, valueCents: int,
                            insertFails: bool, invoicesFail: bool, driversFail: bool)
      returns (outcome: ImportOutcome)
      modifies this`invoices, this`drivers, store`invoices
      ensures var extracted := Extracted(doc, idMs, keyMs, createdAt, valueCents);
              && !outcome.LookupRefused?
              && (outcome.XmlRejected? <==> extracted.Err?)
              && (outcome.XmlRejected? ==> outcome.error == extracted.error)
              && (outcome.Duplicate? <==> extracted.Ok? && KeyTaken(old(invoices), extracted.value.accessKey))
              && (outcome.Duplicate? ==> outcome.number == extracted.value.number)
              && (outcome.Imported? ==> outcome.invoice == extracted.value)
      ensures !outcome.Imported? ==>
        store.invoices == old(store.invoices) && invoices == old(invoices) && drivers == old(drivers)
      ensures outcome.Imported? ==>
        && store.invoices == (if insertFails then old(store.invoices) else old(store.invoices) + [outcome.invoice])
        && invoices == (if invoicesFail then [] else store.invoices)
        && drivers == (if driversFail then [] else store.drivers)
      ensures old(invoices) == old(store.invoices) && UniqueKeys(old(store.invoices)) ==> UniqueKeys(store.invoices)
    {
      var parsed := ParseNFeXml(doc, idMs, keyMs, createdAt, valueCents);
      if parsed.Err? {
        return XmlRejected(parsed.error);
      }
      var added := AddUnlessDuplicate(parsed.value, insertFails, invoicesFail, driversFail);
      outcome := if added then Imported(parsed.value) else Duplicate(parsed.value.number);
    }
  }
}
