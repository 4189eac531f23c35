/**
  The supply report form: the properties the cleaner may report on (one per
  property id, from the cleaner's approved requests), the supply checklist,
  the property picker and the submit guard.
 */
module SupplyReportForm {
  import opened Values
  import opened Seqs

  /** The form's state object. */
  datatype FormData = FormData(
    propertyId: Value,
    landlordId: Value,
    suppliesNeeded: seq<string>,
    urgency: string,
    notes: string)

  const InitialForm := FormData(Str(""), Str(""), [], "medium", "")

  /** The checklist the form offers. */
  const SupplyChoices: seq<string> := [
    "Coffee Pods", "Shampoo/Toiletries", "Paper Products", "Laundry Detergent",
    "Dishwasher Pods", "Cleaning Supplies", "Toilet Paper", "Paper Towels",
    "Trash Bags", "Hand Soap", "Air Freshener", "Vacuum Bags", "Other"]

  /** An entry of the property picker. */
  datatype PropertyOption = PropertyOption(id: Value, name: Value, address: Value, landlordId: Value)

  function PropertyId(row: Record): Value
  {
    Get(row, "property_id")
  }

  predicate HasOptionId(acc: seq<PropertyOption>, id: Value)
  {
    exists j :: 0 <= j < |acc| && acc[j].id == id
  }

  /** The picker entry made from a request row whose joined `properties` object is present. */
  function OptionOf(row: Record): PropertyOption
  {
    var props := Get(row, "properties");
    PropertyOption(PropertyId(row), Member(props, "property_name"), Member(props, "address"), Member(props, "landlord_id"))
  }

  /** Reading a field of `null` or `undefined` throws. */
  predicate Nullish(v: Value)
  {
    v.Null? || v.Undefined?
  }

  /** One step of the `reduce`: a row whose id is already listed is skipped; a new one is
      appended, which throws (`None`) when its `properties` is missing. */
  function UniqueStep(acc: Option<seq<PropertyOption>>, row: Record): Option<seq<PropertyOption>>
  {
    match acc
    case None => None
    case Some(ps) =>
      if HasOptionId(ps, PropertyId(row)) then acc
      else if Nullish(Get(row, "properties")) then None
      else Some(ps + [OptionOf(row)])
  }

  /** `uniqueProperties`, or `None` when the `reduce` throws. */
  function Unique(rows: seq<Record>): Option<seq<PropertyOption>>
    decreases |rows|
  {
    if rows == [] then Some([])
    else UniqueStep(Unique(rows[..|rows| - 1]), rows[|rows| - 1])
  }

  predicate HasRowId(rows: seq<Record>, id: Value)
  {
    exists i :: 0 <= i < |rows| && PropertyId(rows[i]) == id
  }

  /** Row `i` is the first row with its property id. */
  predicate FirstAt(rows: seq<Record>, i: int)
  {
    0 <= i < |rows| && forall i' :: 0 <= i' < i ==> PropertyId(rows[i']) != PropertyId(rows[i])
  }

  lemma HasRowIdSnoc(d: seq<Record>, x: Record, id: Value)
    ensures HasRowId(d + [x], id) <==> HasRowId(d, id) || PropertyId(x) == id
  {
    var rows := d + [x];
    if HasRowId(d, id) {
      var i :| 0 <= i < |d| && PropertyId(d[i]) == id;
      assert rows[i] == d[i];
    }
    if HasRowId(rows, id) {
      var i :| 0 <= i < |rows| && PropertyId(rows[i]) == id;
      if i < |d| {
        assert rows[i] == d[i];
      }
    }
    if PropertyId(x) == id {
      assert rows[|d|] == x;
    }
  }

  lemma HasOptionIdSnoc(ps: seq<PropertyOption>, o: PropertyOption, id: Value)
    ensures HasOptionId(ps + [o], id) <==> HasOptionId(ps, id) || o.id == id
  {
    var r := ps + [o];
    if HasOptionId(ps, id) {
      var j :| 0 <= j < |ps| && ps[j].id == id;
      assert r[j] == ps[j];
    }
    if HasOptionId(r, id) {
      var j :| 0 <= j < |r| && r[j].id == id;
      if j < |ps| {
        assert r[j] == ps[j];
      }
    }
    if o.id == id {
      assert r[|ps|] == o;
    }
  }

  /** The picker lists a property id exactly when some row has it. */
  lemma {:induction false} UniqueCovers(rows: seq<Record>)
    requires Unique(rows).Some?
    ensures forall id :: HasOptionId(Unique(rows).value, id) <==> HasRowId(rows, id)
    decreases |rows|
  {
    if rows != [] {
      var d := rows[..|rows| - 1];
      var x := rows[|rows| - 1];
      assert rows == d + [x];
      UniqueCovers(d);
      var ps := Unique(d).value;
      forall id ensures HasOptionId(Unique(rows).value, id) <==> HasRowId(rows, id) {
        HasRowIdSnoc(d, x, id);
        if !HasOptionId(ps, PropertyId(x)) {
          HasOptionIdSnoc(ps, OptionOf(x), id);
        }
      }
    }
  }

  /** The picker lists every property id at most once. */
  lemma {:induction false} UniqueDistinct(rows: seq<Record>)
    requires Unique(rows).Some?
    ensures forall a, b :: 0 <= a < b < |Unique(rows).value| ==> Unique(rows).value[a].id != Unique(rows).value[b].id
    decreases |rows|
  {
    if rows != [] {
      var d := rows[..|rows| - 1];
      UniqueDistinct(d);
    }
  }

  /** `o` is the option of the first row with its property id. */
  predicate FromFirstRow(rows: seq<Record>, o: PropertyOption)
  {
    exists i :: 0 <= i < |rows| && FirstAt(rows, i) && o == OptionOf(rows[i])
  }

  /** Each entry comes from the first row with its property id. */
  lemma {:induction false} UniqueFirst(rows: seq<Record>)
    requires Unique(rows).Some?
    ensures forall j :: 0 <= j < |Unique(rows).value| ==> FromFirstRow(rows, Unique(rows).value[j])
    decreases |rows|
  {
    if rows != [] {
      var d := rows[..|rows| - 1];
      var x := rows[|rows| - 1];
      UniqueFirst(d);
      UniqueCovers(d);
      var ps := Unique(d).value;
      var r := Unique(rows).value;
      forall j | 0 <= j < |r| ensures FromFirstRow(rows, r[j]) {
        if j < |ps| {
          assert FromFirstRow(d, ps[j]);
          var i :| 0 <= i < |d| && FirstAt(d, i) && ps[j] == OptionOf(d[i]);
          assert r[j] == ps[j];
          assert rows[i] == d[i];
          assert FirstAt(rows, i) by {
            forall i' | 0 <= i' < i ensures PropertyId(rows[i']) != PropertyId(rows[i]) {
              assert rows[i'] == d[i'];
            }
          }
          assert FirstAt(rows, i) && r[j] == OptionOf(rows[i]);
        } else {
          assert !HasOptionId(ps, PropertyId(x)) && r == ps + [OptionOf(x)];
          assert !HasRowId(d, PropertyId(x));
          assert rows[|d|] == x;
          assert FirstAt(rows, |d|) by {
            forall i' | 0 <= i' < |d| ensures PropertyId(rows[i']) != PropertyId(x) {
              assert rows[i'] == d[i'];
            }
          }
          assert FirstAt(rows, |d|) && r[j] == OptionOf(rows[|d|]);
        }
      }
    } else {
      assert Unique(rows).value == [];
    }
  }

  /** Entries keep the order of first occurrence: an earlier entry's id occurs in the rows
      before any row with a later entry's id. */
  lemma {:induction false} UniqueOrdered(rows: seq<Record>)
    requires Unique(rows).Some?
    ensures forall a, b, i ::
      (0 <= a < b < |Unique(rows).value| && 0 <= i < |rows| && PropertyId(rows[i]) == Unique(rows).value[b].id) ==>
      HasRowId(rows[..i], Unique(rows).value[a].id)
    decreases |rows|
  {
    if rows != [] {
      var d := rows[..|rows| - 1];
      var x := rows[|rows| - 1];
      UniqueOrdered(d);
      UniqueCovers(d);
      var ps := Unique(d).value;
      var r := Unique(rows).value;
      forall a, b, i | 0 <= a < b < |r| && 0 <= i < |rows| && PropertyId(rows[i]) == r[b].id
        ensures HasRowId(rows[..i], r[a].id)
      {
        assert r[a] == ps[a];
        assert HasOptionId(ps, r[a].id);
        var i0 :| 0 <= i0 < |d| && PropertyId(d[i0]) == r[a].id;
        if i < |d| {
          assert rows[..i] == d[..i];
          assert rows[i] == d[i];
          assert HasRowId(d, r[b].id);
          assert b < |ps|;
          assert r[b] == ps[b];
        } else {
          assert rows[..i] == d;
        }
      }
    }
  }

  /** The `reduce` as the component runs it: the accumulator array grows by `push`. */
  method UniqueProperties(data: seq<Record>) returns (r: Option<seq<PropertyOption>>)
    ensures r == Unique(data)
  {
    var acc: seq<PropertyOption> := [];
    for i := 0 to |data|
      invariant Unique(data[..i]) == Some(acc)
    {
      var item := data[i];
      assert data[..i + 1][..i] == data[..i];
      if !HasOptionId(acc, PropertyId(item)) {
        if Nullish(Get(item, "properties")) {
          UniqueThrowSticks(data, i + 1);
          assert data[..|data|] == data;
          return None;
        }
        acc := acc + [OptionOf(item)];
      }
    }
    assert data[..|data|] == data;
    r := Some(acc);
  }

  /** Once the `reduce` has thrown, the remaining rows do not matter. */
  lemma {:induction false} UniqueThrowSticks(rows: seq<Record>, n: nat)
    requires n <= |rows| && Unique(rows[..n]).None?
    ensures Unique(rows).None?
    decreases |rows| - n
  {
    if n < |rows| {
      assert rows[..n + 1][..n] == rows[..n];
      UniqueThrowSticks(rows, n + 1);
    } else {
      assert rows[..n] == rows;
    }
  }

  /** `s !== supply` */
  function Other(supply: string): string -> bool
  {
    (s: string) => s != supply
  }

  /** `toggleSupply`: a listed supply is taken out, any other is appended; nothing else changes. */
  function Toggled(f: FormData, supply: string): (r: FormData)
    ensures r.propertyId == f.propertyId && r.landlordId == f.landlordId
    ensures r.urgency == f.urgency && r.notes == f.notes
    ensures supply in r.suppliesNeeded <==> supply !in f.suppliesNeeded
  {
    if supply in f.suppliesNeeded then
      var kept := Filter(f.suppliesNeeded, Other(supply));
      assert supply !in kept;
      f.(suppliesNeeded := kept)
    else f.(suppliesNeeded := f.suppliesNeeded + [supply])
  }

  /** Taking a supply out removes every copy of it and keeps every other supply in order;
      putting one in appends it at the end. */
  lemma ToggledList(f: FormData, supply: string)
    ensures supply in f.suppliesNeeded ==> Toggled(f, supply).suppliesNeeded == Filter(f.suppliesNeeded, Other(supply))
    ensures supply !in f.suppliesNeeded ==> Toggled(f, supply).suppliesNeeded == f.suppliesNeeded + [supply]
    ensures forall s :: s != supply ==> (s in Toggled(f, supply).suppliesNeeded <==> s in f.suppliesNeeded)
  {
    if supply in f.suppliesNeeded {
      var kept := Filter(f.suppliesNeeded, Other(supply));
      forall s | s != supply ensures s in kept <==> s in f.suppliesNeeded {
        if s in f.suppliesNeeded {
          var i :| 0 <= i < |f.suppliesNeeded| && f.suppliesNeeded[i] == s;
        }
        if s in kept {
          var i :| 0 <= i < |kept| && kept[i] == s;
        }
      }
    }
  }

  /** Ticking an unticked supply and unticking it again restores the form. */
  lemma ToggleTwice(f: FormData, supply: string)
    requires supply !in f.suppliesNeeded
    ensures Toggled(Toggled(f, supply), supply) == f
  {
    var l := f.suppliesNeeded;
    FilterAppend(l, [supply], Other(supply));
    FilterSingle(supply, Other(supply));
    FilterAll(l, Other(supply));
    assert Filter(l + [supply], Other(supply)) == l;
  }

  /** Toggling keeps a duplicate-free checklist duplicate-free. */
  lemma ToggleKeepsNoDup(f: FormData, supply: string)
    requires NoDup(f.suppliesNeeded)
    ensures NoDup(Toggled(f, supply).suppliesNeeded)
  {
    if supply in f.suppliesNeeded {
      FilterNoDup(f.suppliesNeeded, Other(supply));
    }
  }

  /** Entry `j` is the first with id `id`. */
  predicate FirstMatch(ps: seq<PropertyOption>, id: Value, j: int)
  {
    0 <= j < |ps| && ps[j].id == id && forall j' :: 0 <= j' < j ==> ps[j'].id != id
  }

  /** `properties.find(p => p.id === id)` */
  function FindOption(ps: seq<PropertyOption>, id: Value): (r: Option<PropertyOption>)
    ensures r.Some? <==> HasOptionId(ps, id)
    ensures r.Some? ==> r.value.id == id && exists j :: FirstMatch(ps, id, j) && ps[j] == r.value
  {
    if ps == [] then None
    else if ps[0].id == id then
      assert FirstMatch(ps, id, 0);
      Some(ps[0])
    else
      var r := FindOption(ps[1..], id);
      assert HasOptionId(ps, id) ==> HasOptionId(ps[1..], id) by {
        if HasOptionId(ps, id) {
          var j :| 0 <= j < |ps| && ps[j].id == id;
          assert ps[1..][j - 1] == ps[j];
        }
      }
      assert r.Some? ==> HasOptionId(ps, id) && exists j :: FirstMatch(ps, id, j) && ps[j] == r.value by {
        if r.Some? {
          var j :| FirstMatch(ps[1..], id, j) && ps[1..][j] == r.value;
          assert ps[j + 1] == r.value;
          assert FirstMatch(ps, id, j + 1) by {
            forall j' | 0 <= j' < j + 1 ensures ps[j'].id != id {
              if j' > 0 { assert ps[j'] == ps[1..][j' - 1]; }
            }
          }
        }
      }
      r
  }

  /** `handlePropertySelect`: the chosen id, the landlord of the first matching entry (or
      `''` when there is none or it has no landlord); the rest of the form is kept. */
  function PropertySelected(f: FormData, ps: seq<PropertyOption>, propertyId: Value): (r: FormData)
    ensures r.propertyId == propertyId
    ensures !HasOptionId(ps, propertyId) ==> r.landlordId == Str("")
    ensures HasOptionId(ps, propertyId) ==> r.landlordId == Or(FindOption(ps, propertyId).value.landlordId, Str(""))
    ensures Truthy(r.landlordId) || r.landlordId == Str("")
    ensures r.suppliesNeeded == f.suppliesNeeded && r.urgency == f.urgency && r.notes == f.notes
  {
    var found := FindOption(ps, propertyId);
    var landlord := if found.Some? then found.value.landlordId else Undefined;
    f.(propertyId := propertyId, landlordId := Or(landlord, Str("")))
  }

  /** The form's state. */
  class SupplyReportFormState {
    var properties: seq<PropertyOption>
    var formData: FormData
    var loading: bool

    constructor ()
      ensures properties == [] && formData == InitialForm && !loading
    {
      properties := [];
      formData := InitialForm;
      loading := false;
    }

    /** `loadProperties`: on success the picker gets the unique properties; a query error or
        a throw in the `reduce` is caught and leaves the picker as it was. */
    method LoadProperties(result: QueryResult)
      modifies this`properties
      ensures !result.error && result.data.Some? && Unique(result.data.value).Some? ==>
        properties == Unique(result.data.value).value
      ensures result.error || result.data.None? || Unique(result.data.value).None? ==>
        properties == old(properties)
    {
      if result.error || result.data.None? {
        return;
      }
      var unique := UniqueProperties(result.data.value);
      if unique.Some? {
        properties := unique.value;
      }
    }

    /** The urgency select and the notes field write their field and keep the rest. */
    method SetUrgency(urgency: string)
      modifies this`formData
      ensures formData == old(formData).(urgency := urgency)
    {
      formData := formData.(urgency := urgency);
    }

    method SetNotes(notes: string)
      modifies this`formData
      ensures formData == old(formData).(notes := notes)
    {
      formData := formData.(notes := notes);
    }

    method ToggleSupply(supply: string)
      modifies this`formData
      ensures formData == Toggled(old(formData), supply)
    {
      formData := Toggled(formData, supply);
    }

    method HandlePropertySelect(propertyId: Value)
      modifies this`formData
      ensures formData == PropertySelected(old(formData), properties, propertyId)
    {
      formData := PropertySelected(formData, properties, propertyId);
    }

    /** `handleSubmit`: with no supply ticked nothing is submitted; otherwise the form is
        handed to `onSubmit` once and `loading` is false afterwards, whether or not it throws
        (`raised`: the throw passes on to the caller). */
    method HandleSubmit(onSubmitThrows: bool) returns (submitted: Option<FormData>, raised: bool)
      modifies this`loading
      ensures old(formData.suppliesNeeded) == [] ==> submitted == None && !raised && loading == old(loading)
      ensures old(formData.suppliesNeeded) != [] ==> submitted == Some(formData) && raised == onSubmitThrows && !loading
    {
      if |formData.suppliesNeeded| == 0 {
        return None, false;
      }
      loading := true;
      submitted := Some(formData);
      raised := onSubmitThrows;
      loading := false;
    }
  }
}
