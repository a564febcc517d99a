/**
 * The order records kept by the restaurant server and the pure operations on
 * the ledger, a sequence of records in insertion order: the record built from
 * a request body, the lookup of the first record with a given id, the two
 * in-place status updates stated as functions on the ledger, and the kitchen
 * and manager views.
 */
module Orders {
  import opened Wrappers

  /** The three statuses a record can hold; no other value is ever written. */
  datatype Status = Preparing | Prepared | Completed

  /**
   * A request body as far as the ledger cares: the id the client chose, a
   * client-supplied `status`, `time` and `finalTotal` if it sent them, and
   * every other property (name, items, ...) as an opaque payload `P`.
   * `T` is the opaque type of a total (a JSON number the server never inspects).
   */
  datatype Body<P, T> = Body(
    orderId: Option<string>,
    status: Option<string>,
    time: Option<string>,
    finalTotal: Option<T>,
    rest: P)

  /** One record of the ledger. */
  datatype Order<P, T> = Order(
    orderId: Option<string>,
    status: Status,
    time: string,
    finalTotal: Option<T>,
    payload: P)

  /** The parts of a record that no handler ever changes once it is stored. */
  ghost predicate SameIdentity<P, T>(a: Order<P, T>, b: Order<P, T>)
  {
    a.orderId == b.orderId && a.time == b.time && a.payload == b.payload
  }

  /**
   * The record `/order` stores: a copy of the body whose `status` is then
   * overwritten with "Preparing" and whose `time` is the server's stamp,
   * whatever the body said about either.
   */
  function Placed<P, T>(body: Body<P, T>, time: string): (o: Order<P, T>)
    ensures o.status == Preparing && o.time == time
    ensures o.orderId == body.orderId && o.finalTotal == body.finalTotal && o.payload == body.rest
  {
    Order(body.orderId, Preparing, time, body.finalTotal, body.rest)
  }

  /**
   * Only the id, the client's own `finalTotal` and the payload of a body reach
   * the stored record.
   */
  lemma PlacedIgnoresBodyStatusAndTime<P, T>(b1: Body<P, T>, b2: Body<P, T>, time: string)
    requires b1.orderId == b2.orderId && b1.finalTotal == b2.finalTotal && b1.rest == b2.rest
    ensures Placed(b1, time) == Placed(b2, time)
  {
  }

  // ---------------------------------------------------------------------------
  // Lookup by id (`orders.find(o => o.orderId === req.body.orderId)`)
  // ---------------------------------------------------------------------------

  /**
   * Index `j` holds the record `find` returns: it carries the id and no
   * earlier record does. Two absent ids are equal, as `undefined === undefined`.
   */
  ghost predicate IsFirstMatch<P, T>(s: seq<Order<P, T>>, id: Option<string>, j: int)
  {
    0 <= j < |s| && s[j].orderId == id && forall k :: 0 <= k < j ==> s[k].orderId != id
  }

  /** The index of the first record carrying `id`, or None when no record does. */
  function FirstMatch<P, T>(s: seq<Order<P, T>>, id: Option<string>): (r: Option<nat>)
    ensures r.None? <==> forall j :: 0 <= j < |s| ==> s[j].orderId != id
    ensures r.Some? ==> IsFirstMatch(s, id, r.value)
  {
    if |s| == 0 then None
    else if s[0].orderId == id then Some(0)
    else
      match FirstMatch(s[1..], id)
      case None => None
      case Some(k) => Some(k + 1)
  }

  /** The index `find` settles on is the only first match there is. */
  lemma FirstMatchIsUnique<P, T>(s: seq<Order<P, T>>, id: Option<string>, i: nat)
    requires IsFirstMatch(s, id, i)
    ensures FirstMatch(s, id) == Some(i)
  {
  }

  // ---------------------------------------------------------------------------
  // The two in-place updates, as functions of the ledger
  // ---------------------------------------------------------------------------

  /**
   * The ledger after `/mark-prepared`: the first record carrying `id` now has
   * status Prepared, whatever its status was; every other record, and every
   * other field, is as before; with no such record nothing changes.
   */
  function Prepare<P, T>(s: seq<Order<P, T>>, id: Option<string>): (r: seq<Order<P, T>>)
    ensures |r| == |s|
    ensures forall j :: 0 <= j < |s| ==>
      r[j] == if IsFirstMatch(s, id, j) then s[j].(status := Prepared) else s[j]
    ensures (forall j :: 0 <= j < |s| ==> s[j].orderId != id) ==> r == s
  {
    match FirstMatch(s, id)
    case None => s
    case Some(i) => s[i := s[i].(status := Prepared)]
  }

  /**
   * The ledger after `/finalize-bill`: the first record carrying `id` now has
   * status Completed and the `finalTotal` of the request (None when the
   * request had none); everything else is as before, and an unknown id
   * changes nothing.
   */
  function Finalize<P, T>(s: seq<Order<P, T>>, id: Option<string>, total: Option<T>): (r: seq<Order<P, T>>)
    ensures |r| == |s|
    ensures forall j :: 0 <= j < |s| ==>
      r[j] == if IsFirstMatch(s, id, j) then s[j].(status := Completed, finalTotal := total) else s[j]
    ensures (forall j :: 0 <= j < |s| ==> s[j].orderId != id) ==> r == s
  {
    match FirstMatch(s, id)
    case None => s
    case Some(i) => s[i := s[i].(status := Completed, finalTotal := total)]
  }

  /** With a match at `i`, mark-prepared is the update of that one record. */
  lemma PrepareAt<P, T>(s: seq<Order<P, T>>, id: Option<string>, i: nat)
    requires IsFirstMatch(s, id, i)
    ensures Prepare(s, id) == s[i := s[i].(status := Prepared)]
  {
    FirstMatchIsUnique(s, id, i);
  }

  /** With a match at `i`, finalize-bill is the update of that one record. */
  lemma FinalizeAt<P, T>(s: seq<Order<P, T>>, id: Option<string>, total: Option<T>, i: nat)
    requires IsFirstMatch(s, id, i)
    ensures Finalize(s, id, total) == s[i := s[i].(status := Completed, finalTotal := total)]
  {
    FirstMatchIsUnique(s, id, i);
  }

  /** Marking the same id prepared twice has the effect of marking it once. */
  lemma PrepareIdempotent<P, T>(s: seq<Order<P, T>>, id: Option<string>)
    ensures Prepare(Prepare(s, id), id) == Prepare(s, id)
  {
    var r := Prepare(s, id);
    forall j | 0 <= j < |s| ensures IsFirstMatch(r, id, j) <==> IsFirstMatch(s, id, j) {
      assert forall k :: 0 <= k < |s| ==> r[k].orderId == s[k].orderId;
    }
  }

  /** Finalizing the same id twice with the same total is finalizing it once. */
  lemma FinalizeIdempotent<P, T>(s: seq<Order<P, T>>, id: Option<string>, total: Option<T>)
    ensures Finalize(Finalize(s, id, total), id, total) == Finalize(s, id, total)
  {
    var r := Finalize(s, id, total);
    forall j | 0 <= j < |s| ensures IsFirstMatch(r, id, j) <==> IsFirstMatch(s, id, j) {
      assert forall k :: 0 <= k < |s| ==> r[k].orderId == s[k].orderId;
    }
  }

  /**
   * Mark-prepared has no status guard: applied to a finalized record it moves
   * it back to Prepared, and the bill's total stays on the record.
   */
  lemma PrepareAfterFinalize<P, T>(s: seq<Order<P, T>>, id: Option<string>, total: Option<T>, i: nat)
    requires IsFirstMatch(s, id, i)
    ensures Finalize(s, id, total)[i].status == Completed
    ensures Prepare(Finalize(s, id, total), id)[i].status == Prepared
    ensures Prepare(Finalize(s, id, total), id)[i].finalTotal == total
  {
    var f := Finalize(s, id, total);
    assert IsFirstMatch(f, id, i) by {
      assert forall k :: 0 <= k < |s| ==> f[k].orderId == s[k].orderId;
    }
  }

  // ---------------------------------------------------------------------------
  // Views (`orders.filter(...)`)
  // ---------------------------------------------------------------------------

  /** The records whose status `keep` accepts, in ledger order. */
  function Select<P, T>(s: seq<Order<P, T>>, keep: Status -> bool): (r: seq<Order<P, T>>)
    ensures |r| <= |s|
    ensures forall o :: o in r ==> o in s && keep(o.status)
  {
    if |s| == 0 then []
    else (if keep(s[0].status) then [s[0]] else []) + Select(s[1..], keep)
  }

  /** Selecting from a concatenation selects from each part, keeping the order. */
  lemma {:induction false} SelectConcat<P, T>(a: seq<Order<P, T>>, b: seq<Order<P, T>>, keep: Status -> bool)
    ensures Select(a + b, keep) == Select(a, keep) + Select(b, keep)
  {
    if |a| == 0 {
      assert a + b == b;
    } else {
      assert (a + b)[1..] == a[1..] + b;
      SelectConcat(a[1..], b, keep);
    }
  }

  /** A single record is kept exactly when its status is accepted. */
  lemma SelectSingleton<P, T>(o: Order<P, T>, keep: Status -> bool)
    ensures Select([o], keep) == if keep(o.status) then [o] else []
  {
    assert [o][1..] == [];
  }

  /**
   * Each accepted record occurs in the selection as often as in the ledger,
   * and a rejected one not at all.
   */
  lemma {:induction false} SelectCount<P, T>(s: seq<Order<P, T>>, keep: Status -> bool, o: Order<P, T>)
    ensures multiset(Select(s, keep))[o] == if keep(o.status) then multiset(s)[o] else 0
  {
    if |s| > 0 {
      assert s == [s[0]] + s[1..];
      SelectCount(s[1..], keep, o);
    }
  }

  /** Replacing one record affects the selection only at that record's place. */
  lemma SelectUpdate<P, T>(s: seq<Order<P, T>>, i: nat, x: Order<P, T>, keep: Status -> bool)
    requires i < |s|
    ensures Select(s[i := x], keep) == Select(s[..i], keep) + Select([x], keep) + Select(s[i + 1..], keep)
    ensures Select(s, keep) == Select(s[..i], keep) + Select([s[i]], keep) + Select(s[i + 1..], keep)
  {
    assert s[i := x] == s[..i] + [x] + s[i + 1..];
    assert s == s[..i] + [s[i]] + s[i + 1..];
    SelectConcat(s[..i] + [x], s[i + 1..], keep);
    SelectConcat(s[..i], [x], keep);
    SelectConcat(s[..i] + [s[i]], s[i + 1..], keep);
    SelectConcat(s[..i], [s[i]], keep);
  }

  /** The kitchen view's test: `o.status === "Preparing"`. */
  predicate IsPreparing(st: Status) { st == Preparing }

  /** The manager view's test: `o.status !== "Completed"`. */
  predicate IsOpen(st: Status) { st != Completed }

  /** A record is selected if and only if it is in the ledger with an accepted status. */
  lemma SelectMembership<P, T>(s: seq<Order<P, T>>, keep: Status -> bool)
    ensures forall o :: o in Select(s, keep) <==> o in s && keep(o.status)
  {
    forall o ensures o in Select(s, keep) <==> o in s && keep(o.status) {
      SelectCount(s, keep, o);
    }
  }

  /** `/orders`: the kitchen's list, the records still being prepared. */
  function KitchenOrders<P, T>(s: seq<Order<P, T>>): (r: seq<Order<P, T>>)
    ensures forall j :: 0 <= j < |r| ==> r[j] in s && r[j].status == Preparing
    ensures forall j :: 0 <= j < |s| && s[j].status == Preparing ==> s[j] in r
  {
    SelectMembership(s, IsPreparing);
    Select(s, IsPreparing)
  }

  /** `/manager-data`: every record whose status is not Completed. */
  function ManagerOrders<P, T>(s: seq<Order<P, T>>): (r: seq<Order<P, T>>)
    ensures forall j :: 0 <= j < |r| ==> r[j] in s && r[j].status != Completed
    ensures forall j :: 0 <= j < |s| && s[j].status != Completed ==> s[j] in r
  {
    SelectMembership(s, IsOpen);
    Select(s, IsOpen)
  }

  // ---------------------------------------------------------------------------
  // How each handler changes the views
  // ---------------------------------------------------------------------------

  /** Both views of a ledger in which record `i` is replaced by `x`. */
  lemma SelectCoversUpdate<P, T>(s: seq<Order<P, T>>, i: nat, x: Order<P, T>)
    requires i < |s|
    ensures KitchenOrders(s[i := x]) ==
      KitchenOrders(s[..i]) + (if x.status == Preparing then [x] else []) + KitchenOrders(s[i + 1..])
    ensures ManagerOrders(s[i := x]) ==
      ManagerOrders(s[..i]) + (if x.status != Completed then [x] else []) + ManagerOrders(s[i + 1..])
  {
    SelectUpdate(s, i, x, IsPreparing);
    SelectSingleton(x, IsPreparing);
    SelectUpdate(s, i, x, IsOpen);
    SelectSingleton(x, IsOpen);
  }

  /** A placed order joins the end of both views; nothing before it moves. */
  lemma ViewsAfterPlace<P, T>(s: seq<Order<P, T>>, body: Body<P, T>, time: string)
    ensures KitchenOrders(s + [Placed(body, time)]) == KitchenOrders(s) + [Placed(body, time)]
    ensures ManagerOrders(s + [Placed(body, time)]) == ManagerOrders(s) + [Placed(body, time)]
  {
    var o := Placed(body, time);
    SelectConcat(s, [o], IsPreparing);
    SelectSingleton(o, IsPreparing);
    SelectConcat(s, [o], IsOpen);
    SelectSingleton(o, IsOpen);
  }

  /**
   * After mark-prepared the record leaves the kitchen view, and the manager
   * view shows it, with its new status, in its old place among the others.
   */
  lemma ViewsAfterPrepare<P, T>(s: seq<Order<P, T>>, id: Option<string>, i: nat)
    requires IsFirstMatch(s, id, i)
    ensures KitchenOrders(Prepare(s, id)) == KitchenOrders(s[..i]) + KitchenOrders(s[i + 1..])
    ensures ManagerOrders(Prepare(s, id)) ==
      ManagerOrders(s[..i]) + [s[i].(status := Prepared)] + ManagerOrders(s[i + 1..])
  {
    var x := s[i].(status := Prepared);
    PrepareAt(s, id, i);
    SelectCoversUpdate(s, i, x);
    assert KitchenOrders(s[..i]) + [] == KitchenOrders(s[..i]);
  }

  /** A finalized record drops out of both views; the rest of each view is untouched. */
  lemma ViewsAfterFinalize<P, T>(s: seq<Order<P, T>>, id: Option<string>, total: Option<T>, i: nat)
    requires IsFirstMatch(s, id, i)
    ensures KitchenOrders(Finalize(s, id, total)) == KitchenOrders(s[..i]) + KitchenOrders(s[i + 1..])
    ensures ManagerOrders(Finalize(s, id, total)) == ManagerOrders(s[..i]) + ManagerOrders(s[i + 1..])
  {
    var x := s[i].(status := Completed, finalTotal := total);
    FinalizeAt(s, id, total, i);
    SelectCoversUpdate(s, i, x);
    assert KitchenOrders(s[..i]) + [] == KitchenOrders(s[..i]);
    assert ManagerOrders(s[..i]) + [] == ManagerOrders(s[..i]);
  }

  /**
   * Because mark-prepared does not look at the current status, a Completed
   * record that it finds comes back into the manager view.
   */
  lemma PrepareReopensCompleted<P, T>(s: seq<Order<P, T>>, id: Option<string>, i: nat)
    requires IsFirstMatch(s, id, i) && s[i].status == Completed
    ensures |ManagerOrders(Prepare(s, id))| == |ManagerOrders(s)| + 1
    ensures s[i].(status := Prepared) in ManagerOrders(Prepare(s, id))
  {
    ViewsAfterPrepare(s, id, i);
    SelectUpdate(s, i, s[i], IsOpen);
    SelectSingleton(s[i], IsOpen);
  }

  // ---------------------------------------------------------------------------
  // Sequences of requests
  // ---------------------------------------------------------------------------

  /** The three requests that change the ledger. */
  datatype Request<P, T> =
    | PostOrder(body: Body<P, T>, time: string)
    | PostMarkPrepared(id: Option<string>)
    | PostFinalizeBill(id: Option<string>, total: Option<T>)

  /**
   * One request's effect on the ledger: a placement adds one record at the
   * end; no request removes or moves a record or changes its id, time stamp
   * or payload.
   */
  function Apply<P, T>(s: seq<Order<P, T>>, req: Request<P, T>): (r: seq<Order<P, T>>)
    ensures |r| == |s| + (if req.PostOrder? then 1 else 0)
    ensures forall j :: 0 <= j < |s| ==> SameIdentity(r[j], s[j])
  {
    match req
    case PostOrder(body, time) => s + [Placed(body, time)]
    case PostMarkPrepared(id) => Prepare(s, id)
    case PostFinalizeBill(id, total) => Finalize(s, id, total)
  }

  /** The ledger after the requests have been handled one after another. */
  function Run<P, T>(s: seq<Order<P, T>>, reqs: seq<Request<P, T>>): seq<Order<P, T>>
    decreases |reqs|
  {
    if |reqs| == 0 then s else Run(Apply(s, reqs[0]), reqs[1..])
  }

  /** The number of placements among the requests. */
  function Placements<P, T>(reqs: seq<Request<P, T>>): nat
  {
    if |reqs| == 0 then 0 else (if reqs[0].PostOrder? then 1 else 0) + Placements(reqs[1..])
  }

  /**
   * Over any run of requests the ledger grows by exactly one record per
   * placement, and every record that was there keeps its place, id, time
   * stamp and payload.
   */
  lemma {:induction false} RunKeepsRecords<P, T>(s: seq<Order<P, T>>, reqs: seq<Request<P, T>>)
    ensures |Run(s, reqs)| == |s| + Placements(reqs)
    ensures forall j :: 0 <= j < |s| ==> SameIdentity(Run(s, reqs)[j], s[j])
    decreases |reqs|
  {
    if |reqs| > 0 {
      var s' := Apply(s, reqs[0]);
      RunKeepsRecords(s', reqs[1..]);
    }
  }
}
