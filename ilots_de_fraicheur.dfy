/** The cooling-equipment view (src/IlotsDeFraicheur.jsx): its filter, its
    table rows and its map items. Pagination is in module Pagination. */
module IlotsDeFraicheur {
  import opened JsValues
  import opened Filtering
  import opened MapItems

  const Columns: seq<string> :=
    ["Nom", "Type", "Adresse", "Arrondissement", "Payant", "Horaires", "Coordonnées"]

  const NotGiven: string := "Non précisé"

  /** The four filter controls; `""` is the "Tous" choice and imposes nothing. */
  datatype Criteria = Criteria(arrondissement: string, typeLieu: string, payant: string, searchTerm: string)

  const NoCriteria := Criteria("", "", "", "")

  function ByDistrict(d: string): Criteria { Criteria(d, "", "", "") }
  function ByType(t: string): Criteria { Criteria("", t, "", "") }
  function ByPaid(p: string): Criteria { Criteria("", "", p, "") }
  function BySearch(s: string): Criteria { Criteria("", "", "", s) }

  /** The search of lines 61-69: an `||` chain, so a field is read (and can
      throw) only when the fields before it did not match. */
  function Search(fields: Val, term: string): Completion<bool>
  {
    OrElse(LowerIncludes(Prop(fields, "nom"), term),
      OrElse(LowerIncludes(Prop(fields, "type"), term),
        OrElse(LowerIncludes(Prop(fields, "adresse"), term),
          LowerIncludes(Prop(fields, "arrondissement"), term))))
  }

  /** The callback given to `lieux.filter`. */
  function Keep(item: Val, c: Criteria): Completion<bool>
  {
    match Unwrap(item)
    case Thrown => Thrown
    case Normal(fields) =>
      if c.arrondissement != "" && Prop(fields, "arrondissement") != Str(c.arrondissement) then Normal(false)
      else if c.typeLieu != "" && Prop(fields, "type") != Str(c.typeLieu) then Normal(false)
      else if c.payant != "" && Prop(fields, "payant") != Str(c.payant) then Normal(false)
      else if c.searchTerm != "" then Search(fields, Lower(c.searchTerm))
      else Normal(true)
  }

  function KeepBy(c: Criteria): Val -> Completion<bool> {
    item => Keep(item, c)
  }

  predicate Matches(item: Val, c: Criteria) {
    Keep(item, c) == Normal(true)
  }

  /** `filteredLieux`: `lieux.filter(...)`. */
  function FilteredLieux(lieux: Val, c: Criteria): (r: Completion<seq<Val>>)
    ensures r.Normal? <==> lieux.Arr? && forall i :: 0 <= i < |lieux.items| ==> Keep(lieux.items[i], c).Normal?
    ensures r.Normal? ==> r.value == Select(lieux.items, Accepts(KeepBy(c)))
    ensures r.Normal? ==> IsSubsequence(r.value, lieux.items)
    ensures r.Normal? ==> forall x :: x in r.value <==> x in lieux.items && Matches(x, c)
  {
    FilterArray(lieux, KeepBy(c))
  }

  // ---------------------------------------------------------------------------
  // Filter properties

  lemma FilterWithoutCriteria(xs: seq<Val>)
    ensures (forall i :: 0 <= i < |xs| ==> !Nullish(xs[i])) ==> Filter(xs, KeepBy(NoCriteria)) == Normal(xs)
    ensures (exists i :: 0 <= i < |xs| && Nullish(xs[i])) ==> Filter(xs, KeepBy(NoCriteria)).Thrown?
  {
    if forall i :: 0 <= i < |xs| ==> !Nullish(xs[i]) {
      FilterIdentity(xs, KeepBy(NoCriteria));
    }
  }

  lemma FilterTwiceIsFilterOnce(xs: seq<Val>, c: Criteria)
    requires Filter(xs, KeepBy(c)).Normal?
    ensures Filter(Filter(xs, KeepBy(c)).value, KeepBy(c)) == Filter(xs, KeepBy(c))
  {
    FilterIdempotent(xs, KeepBy(c));
  }

  lemma MatchesIsConjunction(item: Val, c: Criteria)
    ensures Matches(item, c) <==>
      Matches(item, ByDistrict(c.arrondissement)) && Matches(item, ByType(c.typeLieu))
      && Matches(item, ByPaid(c.payant)) && Matches(item, BySearch(c.searchTerm))
  {
  }

  lemma FilterIsIntersection(xs: seq<Val>, c: Criteria)
    ensures Select(xs, Accepts(KeepBy(c))) ==
      Select(Select(Select(Select(xs,
        Accepts(KeepBy(ByDistrict(c.arrondissement)))),
        Accepts(KeepBy(ByType(c.typeLieu)))),
        Accepts(KeepBy(ByPaid(c.payant)))),
        Accepts(KeepBy(BySearch(c.searchTerm))))
    ensures forall x :: x in Select(xs, Accepts(KeepBy(c))) <==>
      x in Select(xs, Accepts(KeepBy(ByDistrict(c.arrondissement))))
      && x in Select(xs, Accepts(KeepBy(ByType(c.typeLieu))))
      && x in Select(xs, Accepts(KeepBy(ByPaid(c.payant))))
      && x in Select(xs, Accepts(KeepBy(BySearch(c.searchTerm))))
  {
    var pd := Accepts(KeepBy(ByDistrict(c.arrondissement)));
    var pt := Accepts(KeepBy(ByType(c.typeLieu)));
    var pp := Accepts(KeepBy(ByPaid(c.payant)));
    var ps := Accepts(KeepBy(BySearch(c.searchTerm)));
    var p2 := x => pd(x) && pt(x);
    var p3 := x => p2(x) && pp(x);
    forall x ensures Accepts(KeepBy(c))(x) == (p3(x) && ps(x)) {
      MatchesIsConjunction(x, c);
    }
    SelectAnd(xs, pd, pt, p2);
    SelectAnd(xs, p2, pp, p3);
    SelectAnd(xs, p3, ps, Accepts(KeepBy(c)));
    forall x ensures x in Select(xs, Accepts(KeepBy(c))) <==>
      x in Select(xs, pd) && x in Select(xs, pt) && x in Select(xs, pp) && x in Select(xs, ps)
    {
      MatchesIsConjunction(x, c);
      SelectMembership(xs, Accepts(KeepBy(c)), x);
      SelectMembership(xs, pd, x);
      SelectMembership(xs, pt, x);
      SelectMembership(xs, pp, x);
      SelectMembership(xs, ps, x);
    }
  }

  /** District, type and paid choices each demand exact, case-sensitive
      equality with one field. */
  lemma ExactCriteria(item: Val, s: string)
    requires s != ""
    ensures Matches(item, ByDistrict(s)) <==> !Nullish(item) && Prop(FieldsOf(item), "arrondissement") == Str(s)
    ensures Matches(item, ByType(s)) <==> !Nullish(item) && Prop(FieldsOf(item), "type") == Str(s)
    ensures Matches(item, ByPaid(s)) <==> !Nullish(item) && Prop(FieldsOf(item), "payant") == Str(s)
  {
  }

  const SearchKeys: seq<string> := ["nom", "type", "adresse", "arrondissement"]

  /** A non-empty search keeps a record exactly when one of its four search
      fields is a string whose lower-cased text contains the lower-cased term
      and every field read before it is a string or missing. */
  lemma SearchCriterion(item: Val, term: string)
    requires term != ""
    ensures Matches(item, BySearch(term)) <==>
      !Nullish(item) &&
      exists j :: 0 <= j < |SearchKeys| && TextMatches(Prop(FieldsOf(item), SearchKeys[j]), Lower(term))
        && forall i :: 0 <= i < j ==> Nullish(Prop(FieldsOf(item), SearchKeys[i])) || Prop(FieldsOf(item), SearchKeys[i]).Str?
  {
    if !Nullish(item) {
      var f := FieldsOf(item);
      var t := Lower(term);
      if Matches(item, BySearch(term)) {
        if TextMatches(Prop(f, "nom"), t) {
          assert TextMatches(Prop(f, SearchKeys[0]), t);
        } else if TextMatches(Prop(f, "type"), t) {
          assert TextMatches(Prop(f, SearchKeys[1]), t);
        } else if TextMatches(Prop(f, "adresse"), t) {
          assert TextMatches(Prop(f, SearchKeys[2]), t);
        } else {
          assert TextMatches(Prop(f, SearchKeys[3]), t);
        }
      }
    }
  }

  /** Unlike the green-spaces search, a match on the name is found even when a
      later search field is not a string. */
  lemma SearchShortCircuits()
    ensures Matches(Obj(map["nom" := Str("piscine"), "type" := Num(3)]), BySearch("piscine"))
  {
    assert Lower("piscine") == "piscine";
    assert StartsWith("piscine", "piscine");
  }

  // ---------------------------------------------------------------------------
  // Table rows

  function Row(item: Val): Completion<seq<Val>>
  {
    match Unwrap(item)
    case Thrown => Thrown
    case Normal(f) =>
      Normal([
        Or(Prop(f, "nom"), Str(NotGiven)),
        Or(Prop(f, "type"), Str(NotGiven)),
        Or(Prop(f, "adresse"), Str(NotGiven)),
        Or(Prop(f, "arrondissement"), Str(NotGiven)),
        Or(Prop(f, "payant"), Str(NotGiven)),
        Or(Prop(f, "horaires_periode"), Str(NotGiven)),
        CoordinatesCell(f)
      ])
  }

  /** `rows`: `filteredLieux.map(...)`. */
  function Rows(filtered: seq<Val>): Completion<seq<seq<Val>>>
  {
    MapAll(filtered, item => Row(item))
  }

  /** Every row has one cell per column and no blank cell. */
  lemma RowShape(item: Val)
    ensures Row(item).Thrown? <==> Nullish(item)
    ensures Row(item).Normal? ==> |Row(item).value| == |Columns|
    ensures Row(item).Normal? ==> forall i :: 0 <= i < |Columns| ==> Truthy(Row(item).value[i])
  {
    if Row(item).Normal? {
      CoordinatesCellShape(FieldsOf(item));
    }
  }

  /** A falsy field shows "Non précisé"; the last cell is the coordinates. */
  lemma RowCells(item: Val)
    requires !Nullish(item)
    ensures var cells, f := Row(item).value, FieldsOf(item);
      && ShowsOr(cells[0], Prop(f, "nom"), Str(NotGiven))
      && ShowsOr(cells[1], Prop(f, "type"), Str(NotGiven))
      && ShowsOr(cells[2], Prop(f, "adresse"), Str(NotGiven))
      && ShowsOr(cells[3], Prop(f, "arrondissement"), Str(NotGiven))
      && ShowsOr(cells[4], Prop(f, "payant"), Str(NotGiven))
      && ShowsOr(cells[5], Prop(f, "horaires_periode"), Str(NotGiven))
      && cells[6] == CoordinatesCell(f)
  {
  }

  lemma RowsShape(filtered: seq<Val>)
    ensures Rows(filtered).Normal? <==> forall i :: 0 <= i < |filtered| ==> !Nullish(filtered[i])
    ensures Rows(filtered).Normal? ==>
      |Rows(filtered).value| == |filtered|
      && forall i :: 0 <= i < |filtered| ==>
           Rows(filtered).value[i] == Row(filtered[i]).value && |Rows(filtered).value[i]| == |Columns|
  {
    forall i | 0 <= i < |filtered| {
      RowShape(filtered[i]);
    }
  }
  /** The records a completed filter keeps can all be shown: mapping them to
      rows never throws. */
  lemma FilteredRowsComplete(records: Val, c: Criteria)
    requires FilteredLieux(records, c).Normal?
    ensures Rows(FilteredLieux(records, c).value).Normal?
  {
    var kept := FilteredLieux(records, c).value;
    forall i | 0 <= i < |kept| ensures !Nullish(kept[i]) {
      assert Matches(kept[i], c);
    }
    RowsShape(kept);
  }


  // ---------------------------------------------------------------------------
  // Map items

  /** The map item of lines 149-156: no identifier, the name as title. */
  function Marker(item: Val): Completion<MapItem>
  {
    match Unwrap(item)
    case Thrown => Thrown
    case Normal(f) =>
      Normal(MapItem(Undefined, Prop(f, "nom"), Or(Prop(f, "adresse"), Str("Non précisé")),
                     Or(Coordinate(f, "lat"), Num(0)), Or(Coordinate(f, "lon"), Num(0))))
  }

  lemma MarkerShape(item: Val)
    ensures Marker(item).Thrown? <==> Nullish(item)
    ensures Marker(item).Normal? ==>
      var m, f := Marker(item).value, FieldsOf(item);
      && m.identifiant == Undefined && m.title == Prop(f, "nom")
      && (Truthy(Prop(f, "adresse")) ==> m.description == Prop(f, "adresse"))
      && (!Truthy(Prop(f, "adresse")) ==> m.description == Str("Non précisé"))
      && (Truthy(Coordinate(f, "lat")) ==> m.lat == Coordinate(f, "lat"))
      && (!Truthy(Coordinate(f, "lat")) ==> m.lat == Num(0))
      && (Truthy(Coordinate(f, "lon")) ==> m.lon == Coordinate(f, "lon"))
      && (!Truthy(Coordinate(f, "lon")) ==> m.lon == Num(0))
  {
  }
}
