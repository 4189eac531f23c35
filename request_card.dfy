/**
  The card a cleaner sees for one request: the two-step accept (first show the
  price form, then send the price), the decline, the property fallbacks and
  the "supplies to monitor" list with its key labels.
 */
module RequestCard {
  import opened Values
  import opened Seqs

  /** The price argument of `onAction`: omitted (decline) or `parseFloat` of the typed text. */
  datatype PriceArg = Omitted | Parsed(text: string)

  /** A call `onAction(id, action, price)`. */
  datatype CardAction = CardAction(id: Value, action: string, price: PriceArg)

  /** The card's own state. */
  class RequestCardState {
    const requestId: Value
    var showDetails: bool
    var showPriceForm: bool
    var price: string

    constructor (requestId: Value)
      ensures this.requestId == requestId && !showDetails && !showPriceForm && price == ""
    {
      this.requestId := requestId;
      showDetails := false;
      showPriceForm := false;
      price := "";
    }

    /** The details button shows or hides the details. */
    method ToggleDetails()
      modifies this`showDetails
      ensures showDetails == !old(showDetails)
    {
      showDetails := !showDetails;
    }

    /** Typing into the price field. */
    method SetPrice(text: string)
      modifies this`price
      ensures price == text
    {
      price := text;
    }

    /** `handleAccept`: with the form open and a price typed, the accept is sent once and the
        form is reset; otherwise nothing is sent and the form is (or stays) open with the
        typed price kept. */
    method HandleAccept() returns (call: Option<CardAction>)
      modifies this`showPriceForm, this`price
      ensures old(showPriceForm) && old(price) != "" ==>
        call == Some(CardAction(requestId, "accept", Parsed(old(price)))) && !showPriceForm && price == ""
      ensures !(old(showPriceForm) && old(price) != "") ==>
        call == None && showPriceForm && price == old(price)
    {
      if showPriceForm && price != "" {
        call := Some(CardAction(requestId, "accept", Parsed(price)));
        showPriceForm := false;
        price := "";
      } else {
        call := None;
        showPriceForm := true;
      }
    }

    /** `handleDecline`: a decline with no price, whatever the form shows; nothing else changes. */
    method HandleDecline() returns (call: CardAction)
      ensures call == CardAction(requestId, "decline", Omitted)
    {
      call := CardAction(requestId, "decline", Omitted);
    }
  }

  /** `v || fallback` for a truthy fallback: the value itself when truthy, else the fallback. */
  function WithFallback(v: Value, fallback: string): (r: Value)
    requires fallback != ""
    ensures Truthy(r)
    ensures Truthy(v) ==> r == v
    ensures !Truthy(v) ==> r == Str(fallback)
  {
    Or(v, Str(fallback))
  }

  /** The shown property name: the joined name, or the fixed notice when it is missing. */
  function PropertyName(request: Record): (r: Value)
    ensures Truthy(r)
    ensures !Truthy(Member(Get(request, "properties"), "property_name")) ==> r == Str("Property Name Not Available")
    ensures Truthy(Member(Get(request, "properties"), "property_name")) ==> r == Member(Get(request, "properties"), "property_name")
  {
    WithFallback(Member(Get(request, "properties"), "property_name"), "Property Name Not Available")
  }

  /** The shown address: the joined address, or the fixed notice when it is missing. */
  function PropertyAddress(request: Record): (r: Value)
    ensures Truthy(r)
    ensures !Truthy(Member(Get(request, "properties"), "address")) ==> r == Str("Address Not Available")
    ensures Truthy(Member(Get(request, "properties"), "address")) ==> r == Member(Get(request, "properties"), "address")
  {
    WithFallback(Member(Get(request, "properties"), "address"), "Address Not Available")
  }

  /** `Object.entries(v)`: an object's own properties, a string's characters under their
      indices, and nothing for other values. */
  function EntriesOf(v: Value): seq<(string, Value)>
  {
    match v
    case Obj(es) => es
    case Str(s) => seq(|s|, i requires 0 <= i < |s| => (Digits(i), Str([s[i]])))
    case _ => []
  }

  function TruthyEntry(e: (string, Value)): bool
  {
    Truthy(e.1)
  }

  /** `([key, value]) => value` */
  function ValueTruthy(): ((string, Value)) -> bool
  {
    (e: (string, Value)) => TruthyEntry(e)
  }

  /** The labels of the supplies to monitor, or `None` when the list is not rendered: it is
      rendered only for a truthy `supply_list` with at least one truthy value, and lists the
      keys with truthy values in entry order. */
  function SupplyLabels(request: Record): (r: Option<seq<string>>)
    ensures var list := Member(Get(request, "properties"), "supply_list");
      r.Some? <==> Truthy(list) && exists i :: 0 <= i < |EntriesOf(list)| && Truthy(EntriesOf(list)[i].1)
    ensures r.Some? ==> var kept := Filter(EntriesOf(Member(Get(request, "properties"), "supply_list")), ValueTruthy());
      0 < |r.value| == |kept| && forall i :: 0 <= i < |kept| ==> r.value[i] == FormatKey(kept[i].0)
  {
    var list := Member(Get(request, "properties"), "supply_list");
    var kept := Filter(EntriesOf(list), ValueTruthy());
    KeptIffSomeTruthy(EntriesOf(list));
    if Truthy(list) && kept != [] then Some(seq(|kept|, i requires 0 <= i < |kept| => FormatKey(kept[i].0)))
    else None
  }

  /** Some entry is kept exactly when some entry has a truthy value. */
  lemma KeptIffSomeTruthy(es: seq<(string, Value)>)
    ensures Filter(es, ValueTruthy()) != [] <==> exists i :: 0 <= i < |es| && Truthy(es[i].1)
  {
    var kept := Filter(es, ValueTruthy());
    if kept != [] {
      assert TruthyEntry(kept[0]);
      var i :| 0 <= i < |es| && es[i] == kept[0];
    }
  }

  /** `\w`: an ASCII letter, digit or underscore. */
  predicate IsWordChar(c: char)
  {
    ('a' <= c <= 'z') || ('A' <= c <= 'Z') || ('0' <= c <= '9') || c == '_'
  }

  /** `toUpperCase` on the characters `\w` matches. */
  function Upper(c: char): (u: char)
    ensures IsWordChar(c) <==> IsWordChar(u)
    ensures 'a' <= c <= 'z' ==> 'A' <= u <= 'Z' && u as int == c as int - 32
    ensures !('a' <= c <= 'z') ==> u == c
  {
    if 'a' <= c <= 'z' then (c as int - 'a' as int + 'A' as int) as char else c
  }

  /** `s.replace(/_/g, ' ')` */
  function Unscored(s: string): (r: string)
  {
    seq(|s|, i requires 0 <= i < |s| => if s[i] == '_' then ' ' else s[i])
  }

  /** A word character with no word character before it (`\b\w`). */
  predicate WordStart(s: string, i: int)
    requires 0 <= i < |s|
  {
    IsWordChar(s[i]) && (i == 0 || !IsWordChar(s[i - 1]))
  }

  /** `s.replace(/\b\w/g, l => l.toUpperCase())` */
  function Capitalized(s: string): (r: string)
  {
    seq(|s|, i requires 0 <= i < |s| => if WordStart(s, i) then Upper(s[i]) else s[i])
  }

  /** The label of a supply key: the key with `_` as a space and the first letter of each
      word in upper case; no other character changes. */
  function FormatKey(key: string): (r: string)
    ensures |r| == |key|
    ensures '_' !in r
    ensures forall i :: 0 <= i < |key| && key[i] == '_' ==> r[i] == ' '
    ensures forall i :: 0 <= i < |key| && key[i] != '_' && !WordStart(Unscored(key), i) ==> r[i] == key[i]
    ensures forall i :: 0 <= i < |key| && key[i] != '_' && WordStart(Unscored(key), i) ==> r[i] == Upper(key[i])
    ensures forall i :: 0 <= i < |key| && 'a' <= key[i] <= 'z' && (i == 0 || !IsWordChar(key[i - 1]) || key[i - 1] == '_') ==>
      'A' <= r[i] <= 'Z'
  {
    var spaced := Unscored(key);
    var r := Capitalized(spaced);
    assert forall i :: 0 <= i < |key| ==>
      spaced[i] == (if key[i] == '_' then ' ' else key[i]) &&
      r[i] == if WordStart(spaced, i) then Upper(spaced[i]) else spaced[i];
    assert '_' !in r by {
      forall i | 0 <= i < |r| ensures r[i] != '_' {
        assert spaced[i] != '_';
      }
    }
    r
  }

  /** Formatting a label again changes nothing. */
  lemma FormatKeyIdempotent(key: string)
    ensures FormatKey(FormatKey(key)) == FormatKey(key)
  {
    var s := Unscored(key);
    var l := FormatKey(key);
    assert Unscored(l) == l;
    forall i | 0 <= i < |l| ensures WordStart(l, i) == WordStart(s, i) {
    }
    forall i | 0 <= i < |l| ensures Capitalized(l)[i] == l[i] {
      if WordStart(l, i) {
        assert l[i] == Upper(s[i]);
      }
    }
  }
}
