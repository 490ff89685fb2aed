/** The administrators' payment screen: the filtered table, the summary
    counters, and the review of a pending payment, which writes the record
    back with status "approved", or "rejected" with refund data. The payment
    table behind the backend is an in-memory sequence; whether an update
    reaches it and whether the reload that follows succeeds are inputs. */
module AdminPayments {
  import opened Common
  import opened Entities

  const PendingStatus: string := "pending"
  const ApprovedStatus: string := "approved"
  const RejectedStatus: string := "rejected"
  const AllStatuses: string := "all"

  predicate IsPending(p: Payment) { p.status == PendingStatus }
  predicate IsApproved(p: Payment) { p.status == ApprovedStatus }
  predicate IsRejected(p: Payment) { p.status == RejectedStatus }

  /** `reduce((sum, p) => sum + p.amount, 0)`. */
  function SumAmounts(ps: seq<Payment>): real
    decreases |ps|
  {
    if ps == [] then 0.0 else ps[0].amount + SumAmounts(ps[1..])
  }

  /** The revenue: the amounts of the approved payments only. */
  function Revenue(ps: seq<Payment>): real {
    SumAmounts(Filter(ps, IsApproved))
  }

  /** Revenue adds up over a split of the list, one payment at a time. */
  lemma {:induction false} RevenueCons(p: Payment, rest: seq<Payment>)
    ensures Revenue([p] + rest) == (if IsApproved(p) then p.amount else 0.0) + Revenue(rest)
  {
    assert ([p] + rest)[1..] == rest;
    if IsApproved(p) {
      assert Filter([p] + rest, IsApproved) == [p] + Filter(rest, IsApproved);
    }
  }

  /** The search: the lower-cased query inside the lower-cased e-mail or
      transaction id, each only when present. */
  predicate MatchesSearch(query: string, p: Payment) {
    var q := ToLower(query);
    (Truthy(p.userEmail) && Contains(ToLower(p.userEmail), q))
    || (Truthy(p.transactionId) && Contains(ToLower(p.transactionId), q))
  }

  predicate Listed(activeFilter: string, searchQuery: string, p: Payment) {
    (activeFilter == AllStatuses || p.status == activeFilter)
    && (!Truthy(searchQuery) || MatchesSearch(searchQuery, p))
  }

  /** `filteredPayments`. */
  function FilteredPayments(ps: seq<Payment>, activeFilter: string, searchQuery: string): seq<Payment> {
    Filter(ps, p => Listed(activeFilter, searchQuery, p))
  }

  /** The table is an order-preserving sublist holding exactly the payments
      of the chosen status (any, for "all") that match a non-empty search;
      with "all" and no search it is the whole list. */
  lemma {:induction false} FilteredPaymentsSpec(ps: seq<Payment>, activeFilter: string, searchQuery: string)
    ensures Sublist(FilteredPayments(ps, activeFilter, searchQuery), ps)
    ensures forall p :: p in FilteredPayments(ps, activeFilter, searchQuery) <==>
      p in ps && (activeFilter == AllStatuses || p.status == activeFilter)
      && (searchQuery == "" || MatchesSearch(searchQuery, p))
    ensures activeFilter == AllStatuses && searchQuery == "" ==> FilteredPayments(ps, activeFilter, searchQuery) == ps
  {
    var f := p => Listed(activeFilter, searchQuery, p);
    FilterIsSublist(ps, f);
    FilterMembers(ps, f);
    if activeFilter == AllStatuses && searchQuery == "" {
      FilterAll(ps, f);
    }
  }

  lemma {:induction false} FilterAll<T>(s: seq<T>, p: T -> bool)
    requires forall x :: x in s ==> p(x)
    ensures Filter(s, p) == s
    decreases |s|
  {
    if s != [] {
      FilterAll(s[1..], p);
    }
  }

  datatype PaymentStats = PaymentStats(totalPayments: nat, pendingPayments: nat, approvedPayments: nat,
                                       rejectedPayments: nat, totalRevenue: real)

  /** `stats`: the list length, the count per status and the approved revenue.
      The three statuses exclude one another, so their counts never add up to
      more than the total. */
  function Stats(ps: seq<Payment>): (r: PaymentStats)
    ensures r.totalPayments == |ps|
    ensures r.pendingPayments + r.approvedPayments + r.rejectedPayments <= r.totalPayments
    ensures r.totalRevenue == Revenue(ps)
  {
    CountDisjoint3(ps, IsPending, IsApproved, IsRejected);
    PaymentStats(|ps|, Count(ps, IsPending), Count(ps, IsApproved), Count(ps, IsRejected), Revenue(ps))
  }

  /** Payments of any other status count in no status total. */
  lemma {:induction false} OtherStatusUncounted(ps: seq<Payment>, p: Payment)
    requires !IsPending(p) && !IsApproved(p) && !IsRejected(p)
    ensures Stats(ps + [p]) == Stats(ps).(totalPayments := |ps| + 1)
  {
    FilterAppend(ps, [p], IsPending);
    FilterAppend(ps, [p], IsApproved);
    FilterAppend(ps, [p], IsRejected);
    assert Filter(ps + [p], IsApproved) == Filter(ps, IsApproved);
  }

  /** The record approval writes: the same payment with status "approved". */
  function ApprovedRecord(p: Payment): (r: Payment)
    ensures IsApproved(r)
    ensures r.(status := p.status) == p
  {
    p.(status := ApprovedStatus)
  }

  /** The record rejection writes: status "rejected" and the refund data. */
  function RejectedRecord(p: Payment, reason: string, now: string): (r: Payment)
    ensures IsRejected(r) && r.refund == Some(Refund(now, reason))
    ensures r.(status := p.status, refund := p.refund) == p
  {
    p.(status := RejectedStatus, refund := Some(Refund(now, reason)))
  }

  /** `PaymentTransaction.update(id, record)` on the table: every row with
      that id becomes the record. */
  function ReplaceById(ps: seq<Payment>, id: string, rec: Payment): (r: seq<Payment>)
    ensures |r| == |ps|
    ensures forall j :: 0 <= j < |ps| ==> r[j] == (if ps[j].id == id then rec else ps[j])
    decreases |ps|
  {
    if ps == [] then []
    else [if ps[0].id == id then rec else ps[0]] + ReplaceById(ps[1..], id, rec)
  }

  /** Approving the one pending payment with its id raises the revenue by its
      amount. */
  lemma {:induction false} ApprovalAddsRevenue(ps: seq<Payment>, i: nat)
    requires i < |ps| && IsPending(ps[i])
    requires forall j :: 0 <= j < |ps| && j != i ==> ps[j].id != ps[i].id
    ensures Revenue(ReplaceById(ps, ps[i].id, ApprovedRecord(ps[i]))) == Revenue(ps) + ps[i].amount
    decreases |ps|
  {
    var id := ps[i].id;
    var rec := ApprovedRecord(ps[i]);
    var r := ReplaceById(ps, id, rec);
    ReplaceHead(ps, id, rec);
    RevenueHead(ps);
    RevenueHead(r);
    if i == 0 {
      ReplaceAbsent(ps[1..], id, rec);
    } else {
      assert ps[1..][i - 1] == ps[i];
      ApprovalAddsRevenue(ps[1..], i - 1);
    }
  }

  /** Rejecting a pending payment leaves the revenue as it was. */
  lemma {:induction false} RejectionKeepsRevenue(ps: seq<Payment>, id: string, reason: string, now: string, p: Payment)
    requires IsPending(p)
    requires forall j :: 0 <= j < |ps| && ps[j].id == id ==> ps[j] == p
    ensures Revenue(ReplaceById(ps, id, RejectedRecord(p, reason, now))) == Revenue(ps)
    decreases |ps|
  {
    if ps != [] {
      var rec := RejectedRecord(p, reason, now);
      var r := ReplaceById(ps, id, rec);
      ReplaceHead(ps, id, rec);
      RevenueHead(ps);
      RevenueHead(r);
      RejectionKeepsRevenue(ps[1..], id, reason, now, p);
    }
  }

  lemma {:induction false} RevenueHead(ps: seq<Payment>)
    requires ps != []
    ensures Revenue(ps) == (if IsApproved(ps[0]) then ps[0].amount else 0.0) + Revenue(ps[1..])
  {
    assert ps == [ps[0]] + ps[1..];
    RevenueCons(ps[0], ps[1..]);
  }

  lemma {:induction false} ReplaceHead(ps: seq<Payment>, id: string, rec: Payment)
    requires ps != []
    ensures ReplaceById(ps, id, rec)[1..] == ReplaceById(ps[1..], id, rec)
  {
  }

  lemma {:induction false} ReplaceAbsent(ps: seq<Payment>, id: string, rec: Payment)
    requires forall j :: 0 <= j < |ps| ==> ps[j].id != id
    ensures ReplaceById(ps, id, rec) == ps
  {
  }

  /** The reload after a write shows the page shown before with the record
      written into it: a write moves no row in or out of the newest page. */
  lemma {:induction false} ReloadShowsWrite(table: seq<Payment>, id: string, rec: Payment)
    ensures NewestPage(ReplaceById(table, id, rec)) == ReplaceById(NewestPage(table), id, rec)
  {
  }

  /** The row actions: details always; approve and reject only while pending;
      the mail button only once approved. */
  datatype Action = Details | Approve | Reject | MailReceipt

  function RowActions(p: Payment): (r: set<Action>)
    ensures Details in r
    ensures Approve in r <==> IsPending(p)
    ensures Reject in r <==> IsPending(p)
    ensures MailReceipt in r <==> IsApproved(p)
  {
    {Details} + (if IsPending(p) then {Approve, Reject} else {})
    + (if IsApproved(p) then {MailReceipt} else {})
  }

  class PaymentsPage {
    /** The payment table behind the backend, newest first. */
    var table: seq<Payment>
    /** The loaded list the page shows. */
    var payments: seq<Payment>
    var selected: Option<Payment>
    var showApproveModal: bool
    var showRejectModal: bool
    var rejectReason: string
    var alerts: nat

    constructor (backend: seq<Payment>)
      ensures table == backend && payments == [] && selected == None
      ensures !showApproveModal && !showRejectModal && rejectReason == "" && alerts == 0
    {
      table, payments, selected := backend, [], None;
      showApproveModal, showRejectModal, rejectReason, alerts := false, false, "", 0;
    }

    /** `loadPayments`: the newest `PageSize` rows of the table, or an empty
        list when the query fails. */
    method LoadPayments(ok: bool)
      modifies this
      ensures payments == (if ok then NewestPage(table) else [])
      ensures table == old(table) && selected == old(selected) && alerts == old(alerts)
      ensures showApproveModal == old(showApproveModal) && showRejectModal == old(showRejectModal)
      ensures rejectReason == old(rejectReason)
    {
      payments := if ok then NewestPage(table) else [];
    }

    method HandleApprovePayment(p: Payment)
      modifies this
      ensures selected == Some(p) && showApproveModal
      ensures table == old(table) && payments == old(payments) && showRejectModal == old(showRejectModal)
    {
      selected := Some(p);
      showApproveModal := true;
    }

    method HandleRejectPayment(p: Payment)
      modifies this
      ensures selected == Some(p) && showRejectModal
      ensures table == old(table) && payments == old(payments) && showApproveModal == old(showApproveModal)
    {
      selected := Some(p);
      showRejectModal := true;
    }

    method SetRejectReason(reason: string)
      modifies this
      ensures rejectReason == reason
      ensures table == old(table) && payments == old(payments) && selected == old(selected)
    {
      rejectReason := reason;
    }

    /** `confirmApproval`: the selected payment is written back approved and
        the list reloaded, and the modal closes; a failed write leaves the
        table and the modal as they were. Either way one alert reports it. */
    method ConfirmApproval(updated: bool, reloadOk: bool)
      modifies this
      ensures old(selected).Some? && updated ==>
        table == ReplaceById(old(table), old(selected).value.id, ApprovedRecord(old(selected).value))
        && payments == (if reloadOk then NewestPage(table) else []) && !showApproveModal
      ensures !(old(selected).Some? && updated) ==>
        table == old(table) && payments == old(payments) && showApproveModal == old(showApproveModal)
      ensures alerts == old(alerts) + 1
      ensures selected == old(selected) && rejectReason == old(rejectReason)
    {
      if selected.None? || !updated {
        alerts := alerts + 1;
        return;
      }
      var p := selected.value;
      table := ReplaceById(table, p.id, ApprovedRecord(p));
      LoadPayments(reloadOk);
      showApproveModal := false;
      alerts := alerts + 1;
    }

    /** `confirmRejection`: without a reason nothing is written; otherwise the
        selected payment is written back rejected with the reason and the
        time, the list reloaded, the modal closed and the reason cleared. */
    method ConfirmRejection(now: string, updated: bool, reloadOk: bool)
      modifies this
      ensures old(rejectReason) == "" ==>
        table == old(table) && payments == old(payments) && showRejectModal == old(showRejectModal)
        && rejectReason == old(rejectReason)
      ensures old(rejectReason) != "" && old(selected).Some? && updated ==>
        table == ReplaceById(old(table), old(selected).value.id,
                             RejectedRecord(old(selected).value, old(rejectReason), now))
        && payments == (if reloadOk then NewestPage(table) else []) && !showRejectModal && rejectReason == ""
      ensures old(rejectReason) != "" && !(old(selected).Some? && updated) ==>
        table == old(table) && payments == old(payments) && rejectReason == old(rejectReason)
      ensures alerts == old(alerts) + 1
      ensures selected == old(selected)
    {
      if !Truthy(rejectReason) {
        alerts := alerts + 1;
        return;
      }
      if selected.None? || !updated {
        alerts := alerts + 1;
        return;
      }
      var p := selected.value;
      table := ReplaceById(table, p.id, RejectedRecord(p, rejectReason, now));
      LoadPayments(reloadOk);
      showRejectModal := false;
      rejectReason := "";
      alerts := alerts + 1;
    }
  }
}
