/**
  The landlord's dashboard: the four counters, the rows the two insert forms
  send, the modal flags and the recent-requests slice.  Dates are not parsed
  here: `dateOf` gives the month and year of a timestamp value in local time,
  or `None` for a value that is not a valid date.
 */
module LandlordDashboard {
  import opened Values
  import opened Seqs
  import CleanerDashboard

  /** A calendar month: `getMonth()` and `getFullYear()`. */
  datatype MonthYear = MonthYear(month: int, year: int)

  /** Completed, and last updated in the month `now` falls in.  An invalid date never matches. */
  predicate CompletedIn(r: Record, dateOf: Value -> Option<MonthYear>, now: MonthYear)
  {
    Get(r, "status") == Str("completed") && dateOf(Get(r, "updated_at")) == Some(now)
  }

  function CompletedInMonth(dateOf: Value -> Option<MonthYear>, now: MonthYear): Record -> bool
  {
    (r: Record) => CompletedIn(r, dateOf, now)
  }

  datatype LandlordStats = LandlordStats(totalProperties: nat, pendingRequests: nat, scheduledCleanings: nat, completedThisMonth: nat)

  /** `stats`: the property count and three request counters that never count a request twice. */
  function Stats(properties: seq<Record>, requests: seq<Record>, dateOf: Value -> Option<MonthYear>, now: MonthYear): (s: LandlordStats)
    ensures s.totalProperties == |properties|
    ensures s.pendingRequests == |Filter(requests, CleanerDashboard.StatusIs("pending"))|
    ensures s.scheduledCleanings == |Filter(requests, CleanerDashboard.StatusIs("approved"))|
    ensures s.completedThisMonth == |Filter(requests, CompletedInMonth(dateOf, now))|
    ensures s.pendingRequests + s.scheduledCleanings + s.completedThisMonth <= |requests|
    ensures s.completedThisMonth <= |Filter(requests, CleanerDashboard.StatusIs("completed"))|
  {
    var pending := CleanerDashboard.StatusIs("pending");
    var approved := CleanerDashboard.StatusIs("approved");
    var completed := CompletedInMonth(dateOf, now);
    CountExclusive(requests, pending, approved, completed);
    CompletedThisMonthAreCompleted(requests, dateOf, now);
    LandlordStats(|properties|, Count(requests, pending), Count(requests, approved), Count(requests, completed))
  }

  /** The requests completed this month are among the completed ones. */
  lemma {:induction false} CompletedThisMonthAreCompleted(requests: seq<Record>, dateOf: Value -> Option<MonthYear>, now: MonthYear)
    ensures Filter(requests, CompletedInMonth(dateOf, now)) ==
      Filter(Filter(requests, CleanerDashboard.StatusIs("completed")), CompletedInMonth(dateOf, now))
    ensures |Filter(requests, CompletedInMonth(dateOf, now))| <= |Filter(requests, CleanerDashboard.StatusIs("completed"))|
  {
    FilterTwice(requests, CleanerDashboard.StatusIs("completed"), CompletedInMonth(dateOf, now), CompletedInMonth(dateOf, now));
  }

  /** `{ landlord_id: user.id, ...formData }`, the row `addProperty` and
      `createCleaningRequest` insert: a `landlord_id` in the form data wins. */
  function OwnedRow(viewer: string, formData: Record): (r: Record)
    ensures r.Keys == formData.Keys + {"landlord_id"}
    ensures Get(r, "landlord_id") == if "landlord_id" in formData then formData["landlord_id"] else Str(viewer)
    ensures forall k :: k != "landlord_id" ==> Get(r, k) == Get(formData, k)
  {
    Spread(map["landlord_id" := Str(viewer)], formData)
  }

  /** `recentRequests`: the first five requests, in order. */
  function RecentRequests(requests: seq<Record>): (r: seq<Record>)
    ensures |r| == if |requests| < 5 then |requests| else 5
    ensures r == requests[..|r|]
  {
    Take(requests, 5)
  }

  /** An insert: the table and the row. */
  datatype Insert = Insert(table: string, row: Record)

  /** The modal flags and the property a request is being created for. */
  class LandlordView {
    const viewer: string
    var showAddProperty: bool
    var showCreateRequest: bool
    var selectedProperty: Option<Record>

    constructor (viewer: string)
      ensures this.viewer == viewer
      ensures !showAddProperty && !showCreateRequest && selectedProperty == None
    {
      this.viewer := viewer;
      showAddProperty := false;
      showCreateRequest := false;
      selectedProperty := None;
    }

    /** `addProperty`: the insert sent; the form closes unless the awaited promise rejects. */
    method AddProperty(propertyData: Record, rejects: bool) returns (sent: Insert)
      modifies this`showAddProperty
      ensures sent == Insert("properties", OwnedRow(viewer, propertyData))
      ensures showAddProperty == (old(showAddProperty) && rejects)
    {
      sent := Insert("properties", OwnedRow(viewer, propertyData));
      if !rejects {
        showAddProperty := false;
      }
    }

    /** `createCleaningRequest`: the insert sent; the modal closes unless the awaited promise rejects. */
    method CreateCleaningRequest(requestData: Record, rejects: bool) returns (sent: Insert)
      modifies this`showCreateRequest
      ensures sent == Insert("cleaning_requests", OwnedRow(viewer, requestData))
      ensures showCreateRequest == (old(showCreateRequest) && rejects)
    {
      sent := Insert("cleaning_requests", OwnedRow(viewer, requestData));
      if !rejects {
        showCreateRequest := false;
      }
    }

    /** "Request Cleaning" on a property: remember it and open the request modal. */
    method RequestCleaning(property: Record)
      modifies this`selectedProperty, this`showCreateRequest
      ensures selectedProperty == Some(property) && showCreateRequest
    {
      selectedProperty := Some(property);
      showCreateRequest := true;
    }

    /** The requests tab's "new request" button: open the modal, keep the selection. */
    method OpenCreateRequest()
      modifies this`showCreateRequest
      ensures showCreateRequest
    {
      showCreateRequest := true;
    }

    /** Closing the request modal also forgets the selected property. */
    method CloseCreateRequest()
      modifies this`showCreateRequest, this`selectedProperty
      ensures !showCreateRequest && selectedProperty == None
    {
      showCreateRequest := false;
      selectedProperty := None;
    }

    /** The add-property form is opened and cancelled through `setShowAddProperty`. */
    method SetShowAddProperty(show: bool)
      modifies this`showAddProperty
      ensures showAddProperty == show
    {
      showAddProperty := show;
    }
  }
}
