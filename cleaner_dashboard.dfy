/**
  The cleaner's dashboard: which requests the cleaner sees, the hide-set that
  a decline grows, the row an accept writes, the counters, the lists each tab
  receives, the unread-messages badge and the recent-activity slice.
 */
module CleanerDashboard {
  import opened Values
  import opened Seqs
  import opened Realtime

  /** `request.status === s` */
  function StatusIs(s: string): Record -> bool
  {
    (r: Record) => Get(r, "status") == Str(s)
  }

  /** `r.status === s && r.cleaner_id === viewer` */
  function AssignedWith(viewer: string, s: string): Record -> bool
  {
    (r: Record) => Get(r, "status") == Str(s) && Get(r, "cleaner_id") == Str(viewer)
  }

  /** Not hidden by a decline, and either an open pending request or one assigned to the viewer. */
  predicate Visible(r: Record, viewer: string, declined: set<Value>)
  {
    && Id(r) !in declined
    && ((Get(r, "status") == Str("pending") && !Truthy(Get(r, "cleaner_id"))) || Get(r, "cleaner_id") == Str(viewer))
  }

  function VisibleTo(viewer: string, declined: set<Value>): Record -> bool
  {
    (r: Record) => Visible(r, viewer, declined)
  }

  /** `filteredRequests`: a request is shown exactly when it is visible, in the order loaded. */
  function FilteredRequests(requests: seq<Record>, viewer: string, declined: set<Value>): (r: seq<Record>)
    ensures forall i :: 0 <= i < |r| ==> r[i] in requests && Visible(r[i], viewer, declined)
    ensures forall i :: 0 <= i < |requests| ==> (requests[i] in r <==> Visible(requests[i], viewer, declined))
  {
    var r := Filter(requests, VisibleTo(viewer, declined));
    assert forall x :: x in r ==> Visible(x, viewer, declined) by {
      forall x | x in r ensures Visible(x, viewer, declined) {
        var i :| 0 <= i < |r| && r[i] == x;
      }
    }
    r
  }

  /** Declining a request hides every row with that id and nothing else: the new list is the
      old one without that id, and every hidden row was shown before. */
  lemma DeclineHides(requests: seq<Record>, viewer: string, declined: set<Value>, id: Value)
    ensures FilteredRequests(requests, viewer, declined + {id}) ==
      Filter(FilteredRequests(requests, viewer, declined), OtherId(id))
    ensures forall i :: 0 <= i < |FilteredRequests(requests, viewer, declined + {id})| ==>
      Id(FilteredRequests(requests, viewer, declined + {id})[i]) != id
  {
    FilterTwice(requests, VisibleTo(viewer, declined), OtherId(id), VisibleTo(viewer, declined + {id}));
  }

  /** The write an accept sends: the row `id` of `cleaning_requests` gets these fields. */
  datatype RowUpdate = RowUpdate(table: string, id: Value, fields: Record)

  /** The fields an accept writes. */
  function AcceptPayload(viewer: string, price: Value): (r: Record)
    ensures r.Keys == {"cleaner_id", "status", "price"}
    ensures r["cleaner_id"] == Str(viewer) && r["status"] == Str("approved") && r["price"] == price
  {
    map["cleaner_id" := Str(viewer), "status" := Str("approved"), "price" := price]
  }

  /** `price = null`: an omitted price is `null`. */
  function PriceArgument(price: Value): Value
  {
    if price == Undefined then Null else price
  }

  /** `{ cleaner_id: user.id, ...reportData }`: a `cleaner_id` in the report wins. */
  function SupplyReportRow(viewer: string, reportData: Record): (r: Record)
    ensures r.Keys == reportData.Keys + {"cleaner_id"}
    ensures Get(r, "cleaner_id") == if "cleaner_id" in reportData then reportData["cleaner_id"] else Str(viewer)
    ensures forall k :: k != "cleaner_id" ==> Get(r, k) == Get(reportData, k)
  {
    Spread(map["cleaner_id" := Str(viewer)], reportData)
  }

  /** The state the cleaner's dashboard keeps. */
  class CleanerView {
    const viewer: string
    var declined: set<Value>
    var showSupplyReport: bool

    constructor (viewer: string)
      ensures this.viewer == viewer && declined == {} && !showSupplyReport
    {
      this.viewer := viewer;
      declined := {};
      showSupplyReport := false;
    }

    /** `handleRequestAction`: an accept writes the assignment and hides nothing; any other
        action writes nothing and adds the id to the hide-set, which never shrinks. */
    method HandleRequestAction(requestId: Value, action: string, price: Value) returns (write: Option<RowUpdate>)
      modifies this`declined
      ensures action == "accept" ==>
        write == Some(RowUpdate("cleaning_requests", requestId, AcceptPayload(viewer, PriceArgument(price)))) &&
        declined == old(declined)
      ensures action != "accept" ==> write == None && declined == old(declined) + {requestId}
      ensures old(declined) <= declined
    {
      if action == "accept" {
        write := Some(RowUpdate("cleaning_requests", requestId, AcceptPayload(viewer, PriceArgument(price))));
      } else {
        declined := declined + {requestId};
        write := None;
      }
    }

    /** The supplies tab's buttons open the report form; its close button hides it. */
    method SetShowSupplyReport(show: bool)
      modifies this`showSupplyReport
      ensures showSupplyReport == show
    {
      showSupplyReport := show;
    }

    /** `submitSupplyReport`: the row sent, and the modal closes unless the insert fails. */
    method SubmitSupplyReport(reportData: Record, insertFails: bool) returns (row: Record)
      modifies this`showSupplyReport
      ensures row == SupplyReportRow(viewer, reportData)
      ensures showSupplyReport == (old(showSupplyReport) && insertFails)
    {
      row := SupplyReportRow(viewer, reportData);
      if !insertFails {
        showSupplyReport := false;
      }
    }
  }

  datatype CleanerStats = CleanerStats(pendingRequests: nat, approvedJobs: nat, completedJobs: nat)

  /** The counters over the shown requests; each request is counted at most once. */
  function Stats(shown: seq<Record>, viewer: string): (s: CleanerStats)
    ensures s.pendingRequests + s.approvedJobs + s.completedJobs <= |shown|
    ensures s.pendingRequests == |RequestsTab(shown)| && s.approvedJobs == |Schedule(shown, viewer)|
    ensures s.completedJobs == |Filter(shown, AssignedWith(viewer, "completed"))|
  {
    CountExclusive(shown, StatusIs("pending"), AssignedWith(viewer, "approved"), AssignedWith(viewer, "completed"));
    CleanerStats(
      Count(shown, StatusIs("pending")),
      Count(shown, AssignedWith(viewer, "approved")),
      Count(shown, AssignedWith(viewer, "completed")))
  }

  /** The list the New Requests tab receives. */
  function RequestsTab(shown: seq<Record>): seq<Record>
  {
    Filter(shown, StatusIs("pending"))
  }

  /** The list the schedule, its calendar and its list view receive. */
  function Schedule(shown: seq<Record>, viewer: string): seq<Record>
  {
    Filter(shown, AssignedWith(viewer, "approved"))
  }

  /** A pending request that is not hidden and open or assigned to the viewer. */
  function OpenPending(viewer: string, declined: set<Value>): Record -> bool
  {
    (r: Record) => Get(r, "status") == Str("pending") && Id(r) !in declined &&
      (!Truthy(Get(r, "cleaner_id")) || Get(r, "cleaner_id") == Str(viewer))
  }

  /** The New Requests tab lists, in loaded order, the pending requests not hidden and not
      taken by another cleaner. */
  lemma RequestsTabContents(requests: seq<Record>, viewer: string, declined: set<Value>)
    ensures RequestsTab(FilteredRequests(requests, viewer, declined)) == Filter(requests, OpenPending(viewer, declined))
  {
    FilterTwice(requests, VisibleTo(viewer, declined), StatusIs("pending"), OpenPending(viewer, declined));
  }

  function ApprovedForViewer(viewer: string, declined: set<Value>): Record -> bool
  {
    (r: Record) => Get(r, "status") == Str("approved") && Get(r, "cleaner_id") == Str(viewer) && Id(r) !in declined
  }

  /** The schedule lists, in loaded order, exactly the approved requests assigned to the
      viewer that the viewer has not hidden. */
  lemma ScheduleContents(requests: seq<Record>, viewer: string, declined: set<Value>)
    ensures Schedule(FilteredRequests(requests, viewer, declined), viewer) == Filter(requests, ApprovedForViewer(viewer, declined))
  {
    FilterTwice(requests, VisibleTo(viewer, declined), AssignedWith(viewer, "approved"), ApprovedForViewer(viewer, declined));
  }

  /** `!m.read_at && m.recipient_id === user.id` */
  function UnreadRecord(viewer: string): Record -> bool
  {
    (m: Record) => !Truthy(Get(m, "read_at")) && Get(m, "recipient_id") == Str(viewer)
  }

  /** The count a tab badge shows: rendered only when positive. */
  function Badge(n: nat): Option<nat>
  {
    if n > 0 then Some(n) else None
  }

  /** The Messages tab badge (the landlord's dashboard renders the same one): shown exactly
      when some message to the viewer is unread, with the number of such messages. */
  function MessagesBadge(messages: seq<Record>, viewer: string): (b: Option<nat>)
    ensures b.Some? <==> exists i :: 0 <= i < |messages| && UnreadRecord(viewer)(messages[i])
    ensures b.Some? ==> 0 < b.value == |Filter(messages, UnreadRecord(viewer))| <= |messages|
  {
    var unread := Filter(messages, UnreadRecord(viewer));
    assert unread != [] ==> exists i :: 0 <= i < |messages| && UnreadRecord(viewer)(messages[i]) by {
      if unread != [] {
        var i :| 0 <= i < |messages| && messages[i] == unread[0];
      }
    }
    Badge(|unread|)
  }

  /** `recentActivity`: the first five shown requests, in order. */
  function RecentActivity(shown: seq<Record>): (r: seq<Record>)
    ensures |r| == if |shown| < 5 then |shown| else 5
    ensures r == shown[..|r|]
  {
    Take(shown, 5)
  }
}
