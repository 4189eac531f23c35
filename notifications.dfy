/**
  The notification helpers: the fixed toasts, the messages of a promise toast,
  the time label and the badge classes for a status and an urgency.  Showing a
  toast and formatting a time in a locale are outside the model: a toast is the
  value describing it, and the locale clock format is a parameter.
 */
module Notifications {
  import opened Values

  /** The kind of toast `toast.success` and `toast.error` show. */
  datatype Level = Success | Error

  /** The fixed notifications. */
  datatype Notice = RequestCreated | RequestApproved | RequestDeclined | PropertyAdded | MessageSent | SupplyReported

  datatype Toast = Toast(level: Level, text: string)

  /** `notify.requestCreated()` and its siblings: only a declined request is an error, and
      every notice has its own text. */
  function NoticeToast(n: Notice): (t: Toast)
    ensures t.level == Error <==> n == RequestDeclined
    ensures t.text != "" && t.text[0] == Icon(n)
  {
    match n
    case RequestCreated => Toast(Success, "\U{1F9F9} Cleaning request sent to cleaners!")
    case RequestApproved => Toast(Success, "\U{2705} Cleaning request approved!")
    case RequestDeclined => Toast(Error, "\U{274C} Cleaning request declined")
    case PropertyAdded => Toast(Success, "\U{1F3E0} Property added successfully!")
    case MessageSent => Toast(Success, "\U{1F4AC} Message sent!")
    case SupplyReported => Toast(Success, "\U{1F4E6} Supply report submitted!")
  }

  /** Different notices never show the same text. */
  lemma NoticeTextsDistinct(a: Notice, b: Notice)
    requires a != b
    ensures NoticeToast(a).text != NoticeToast(b).text
  {
    assert Icon(a) != Icon(b);
  }

  /** The emoji each notice text starts with. */
  function Icon(n: Notice): char
  {
    match n
    case RequestCreated => '\U{1F9F9}'
    case RequestApproved => '\U{2705}'
    case RequestDeclined => '\U{274C}'
    case PropertyAdded => '\U{1F3E0}'
    case MessageSent => '\U{1F4AC}'
    case SupplyReported => '\U{1F4E6}'
  }

  /** The three messages `notify.promise` hands to the promise toast. */
  datatype PromiseMessages = PromiseMessages(loading: Value, success: Value, error: Value)

  /** `notify.promise(promise, messages)`: each message given wins when truthy; otherwise its
      default is shown.  No phase of the toast is ever left without a text. */
  function PromiseToast(messages: Record): (r: PromiseMessages)
    ensures Truthy(r.loading) && Truthy(r.success) && Truthy(r.error)
    ensures Truthy(Get(messages, "loading")) ==> r.loading == Get(messages, "loading")
    ensures Truthy(Get(messages, "success")) ==> r.success == Get(messages, "success")
    ensures Truthy(Get(messages, "error")) ==> r.error == Get(messages, "error")
    ensures !Truthy(Get(messages, "loading")) ==> r.loading == Str("Loading...")
    ensures !Truthy(Get(messages, "success")) ==> r.success == Str("Success!")
    ensures !Truthy(Get(messages, "error")) ==> r.error == Str("Something went wrong")
  {
    PromiseMessages(
      Or(Get(messages, "loading"), Str("Loading...")),
      Or(Get(messages, "success"), Str("Success!")),
      Or(Get(messages, "error"), Str("Something went wrong")))
  }

  /** `formatTime(time)`: "Flexible" for a missing or empty time; otherwise the locale's
      12-hour clock text for it, which `clock` stands for. */
  function FormatTime(time: Value, clock: Value -> string): (r: string)
    ensures !Truthy(time) ==> r == "Flexible"
    ensures Truthy(time) ==> r == clock(time)
  {
    if !Truthy(time) then "Flexible" else clock(time)
  }

  /** The classes shown for an unknown status or urgency. */
  const Gray := "bg-gray-100 text-gray-800"

  /** The table `getStatusColor` looks a status up in. */
  function StatusColors(): map<string, string>
  {
    map[
      "pending" := "bg-yellow-100 text-yellow-800",
      "approved" := "bg-green-100 text-green-800",
      "declined" := "bg-red-100 text-red-800",
      "completed" := "bg-blue-100 text-blue-800",
      "cancelled" := Gray]
  }

  /** `getStatusColor(status)`: the status is looked up by its string form; a status outside
      the table, and only such a status or a cancelled one, gets the gray classes. */
  function StatusColor(status: Value): (r: string)
    ensures r in StatusColors().Values
    ensures Show(status) in StatusColors() ==> r == StatusColors()[Show(status)]
    ensures r == Gray <==> Show(status) !in {"pending", "approved", "declined", "completed"}
  {
    var key := Show(status);
    if key in StatusColors() then StatusColors()[key]
    else
      assert StatusColors()["cancelled"] == Gray;
      Gray
  }

  /** The five statuses the table lists get five different class strings. */
  lemma StatusColorsDistinct(a: string, b: string)
    requires a in {"pending", "approved", "declined", "completed", "cancelled"}
    requires b in {"pending", "approved", "declined", "completed", "cancelled"}
    requires a != b
    ensures StatusColor(Str(a)) != StatusColor(Str(b))
  {
  }

  /** The table `getUrgencyColor` looks an urgency up in. */
  function UrgencyColors(): map<string, string>
  {
    map[
      "low" := "bg-green-100 text-green-800",
      "medium" := "bg-yellow-100 text-yellow-800",
      "high" := "bg-red-100 text-red-800"]
  }

  /** `getUrgencyColor(urgency)`: the three urgencies get green, yellow and red; anything
      else, and only anything else, gets gray. */
  function UrgencyColor(urgency: Value): (r: string)
    ensures Show(urgency) in UrgencyColors() ==> r == UrgencyColors()[Show(urgency)]
    ensures r == Gray <==> Show(urgency) !in UrgencyColors()
  {
    var key := Show(urgency);
    if key in UrgencyColors() then UrgencyColors()[key] else Gray
  }
}
