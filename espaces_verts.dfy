/** The green-spaces view (src/EspacesVerts.jsx): its filter, its table rows
    and its map items. Pagination is in module Pagination. */
module EspacesVerts {
  import opened JsValues
  import opened Filtering
  import opened MapItems

  const Columns: seq<string> :=
    ["Nom", "Type", "Adresse", "Arrondissement", "Proportion végétation haute", "Ouvert 24h", "Horaires"]

  const NotGiven: string := "Non précisé"

  /** The four filter controls; `""` is the "Tous" choice and imposes nothing. */
  datatype Criteria = Criteria(arrondissement: string, ouvert24h: string, typeEspace: string, searchTerm: string)

  const NoCriteria := Criteria("", "", "", "")

  function ByDistrict(d: string): Criteria { Criteria(d, "", "", "") }
  function ByOpen(o: string): Criteria { Criteria("", o, "", "") }
  function ByType(t: string): Criteria { Criteria("", "", t, "") }
  function BySearch(s: string): Criteria { Criteria("", "", "", s) }

  /** `fields.ouvert_24h?.toString().toLowerCase() === "oui"` */
  predicate IsOpen(fields: Val) {
    var v := Prop(fields, "ouvert_24h");
    !Nullish(v) && Lower(ToText(v)) == "oui"
  }

  /** The fields the free-text search looks at, in the order it reads them. */
  const SearchKeys: seq<string> := ["nom", "type", "adresse", "arrondissement"]

  /** The search reads `toLowerCase` of each of its fields: only strings and
      nullish values survive that. */
  predicate Searchable(fields: Val) {
    forall k :: k in SearchKeys ==> Nullish(Prop(fields, k)) || Prop(fields, k).Str?
  }

  /** The search of lines 68-75: all four matches are computed before they are
      combined, so any one of them can throw. */
  function Search(fields: Val, term: string): Completion<bool>
  {
    var nom := LowerIncludes(Prop(fields, "nom"), term);
    var ty := LowerIncludes(Prop(fields, "type"), term);
    var adresse := LowerIncludes(Prop(fields, "adresse"), term);
    var arr := LowerIncludes(Prop(fields, "arrondissement"), term);
    if nom.Thrown? || ty.Thrown? || adresse.Thrown? || arr.Thrown? then Thrown
    else Normal(nom.value || ty.value || adresse.value || arr.value)
  }

  /** The callback given to `espaces.filter`. */
  function Keep(item: Val, c: Criteria): Completion<bool>
  {
    match Unwrap(item)
    case Thrown => Thrown
    case Normal(fields) =>
      if c.arrondissement != "" && Prop(fields, "arrondissement") != Str(c.arrondissement) then Normal(false)
      else if c.ouvert24h != "" && c.ouvert24h == "oui" && !IsOpen(fields) then Normal(false)
      else if c.ouvert24h != "" && c.ouvert24h == "non" && IsOpen(fields) then Normal(false)
      else if c.typeEspace != "" && Prop(fields, "type") != Str(c.typeEspace) then Normal(false)
      else if c.searchTerm != "" then Search(fields, Lower(c.searchTerm))
      else Normal(true)
  }

  function KeepBy(c: Criteria): Val -> Completion<bool> {
    item => Keep(item, c)
  }

  /** The callback keeps the record (neither rejects it nor throws). */
  predicate Matches(item: Val, c: Criteria) {
    Keep(item, c) == Normal(true)
  }

  /** `filteredEspaces`: `espaces.filter(...)`, where `espaces` is whatever the
      last fetch resolved to. */
  function FilteredEspaces(espaces: Val, c: Criteria): (r: Completion<seq<Val>>)
    ensures r.Normal? <==> espaces.Arr? && forall i :: 0 <= i < |espaces.items| ==> Keep(espaces.items[i], c).Normal?
    ensures r.Normal? ==> r.value == Select(espaces.items, Accepts(KeepBy(c)))
    ensures r.Normal? ==> IsSubsequence(r.value, espaces.items)
    ensures r.Normal? ==> forall x :: x in r.value <==> x in espaces.items && Matches(x, c)
  {
    FilterArray(espaces, KeepBy(c))
  }

  // ---------------------------------------------------------------------------
  // Filter properties

  /** With every control on "Tous" the list is unchanged, unless it holds a
      `null` record, whose `fields` cannot be read. */
  lemma FilterWithoutCriteria(xs: seq<Val>)
    ensures (forall i :: 0 <= i < |xs| ==> !Nullish(xs[i])) ==> Filter(xs, KeepBy(NoCriteria)) == Normal(xs)
    ensures (exists i :: 0 <= i < |xs| && Nullish(xs[i])) ==> Filter(xs, KeepBy(NoCriteria)).Thrown?
  {
    if forall i :: 0 <= i < |xs| ==> !Nullish(xs[i]) {
      FilterIdentity(xs, KeepBy(NoCriteria));
    }
  }

  lemma FilterTwiceIsFilterOnce(xs: seq<Val>, c: Criteria)
    requires Filter(xs, KeepBy(c)).Normal?
    ensures Filter(Filter(xs, KeepBy(c)).value, KeepBy(c)) == Filter(xs, KeepBy(c))
  {
    FilterIdempotent(xs, KeepBy(c));
  }

  /** A record passes the combined criteria exactly when it passes each
      criterion alone. */
  lemma MatchesIsConjunction(item: Val, c: Criteria)
    ensures Matches(item, c) <==>
      Matches(item, ByDistrict(c.arrondissement)) && Matches(item, ByOpen(c.ouvert24h))
      && Matches(item, ByType(c.typeEspace)) && Matches(item, BySearch(c.searchTerm))
  {
  }

  /** Filtering with all criteria is filtering by each criterion in turn, and
      keeps exactly the records that every single-criterion filter keeps. */
  lemma FilterIsIntersection(xs: seq<Val>, c: Criteria)
    ensures Select(xs, Accepts(KeepBy(c))) ==
      Select(Select(Select(Select(xs,
        Accepts(KeepBy(ByDistrict(c.arrondissement)))),
        Accepts(KeepBy(ByOpen(c.ouvert24h)))),
        Accepts(KeepBy(ByType(c.typeEspace)))),
        Accepts(KeepBy(BySearch(c.searchTerm))))
    ensures forall x :: x in Select(xs, Accepts(KeepBy(c))) <==>
      x in Select(xs, Accepts(KeepBy(ByDistrict(c.arrondissement))))
      && x in Select(xs, Accepts(KeepBy(ByOpen(c.ouvert24h))))
      && x in Select(xs, Accepts(KeepBy(ByType(c.typeEspace))))
      && x in Select(xs, Accepts(KeepBy(BySearch(c.searchTerm))))
  {
    var pd := Accepts(KeepBy(ByDistrict(c.arrondissement)));
    var po := Accepts(KeepBy(ByOpen(c.ouvert24h)));
    var pt := Accepts(KeepBy(ByType(c.typeEspace)));
    var ps := Accepts(KeepBy(BySearch(c.searchTerm)));
    var p2 := x => pd(x) && po(x);
    var p3 := x => p2(x) && pt(x);
    forall x ensures Accepts(KeepBy(c))(x) == (p3(x) && ps(x)) {
      MatchesIsConjunction(x, c);
    }
    SelectAnd(xs, pd, po, p2);
    SelectAnd(xs, p2, pt, p3);
    SelectAnd(xs, p3, ps, Accepts(KeepBy(c)));
    forall x ensures x in Select(xs, Accepts(KeepBy(c))) <==>
      x in Select(xs, pd) && x in Select(xs, po) && x in Select(xs, pt) && x in Select(xs, ps)
    {
      MatchesIsConjunction(x, c);
      SelectMembership(xs, Accepts(KeepBy(c)), x);
      SelectMembership(xs, pd, x);
      SelectMembership(xs, po, x);
      SelectMembership(xs, pt, x);
      SelectMembership(xs, ps, x);
    }
  }

  /** A record wrapped under `fields` is filtered, shown and placed exactly
      like the bare record. */
  lemma WrappedRecordReadsFields(f: Val, c: Criteria)
    requires f.Obj? && !Truthy(Prop(f, "fields"))
    ensures Keep(Obj(map["fields" := f]), c) == Keep(f, c)
    ensures Row(Obj(map["fields" := f])) == Row(f) && Row(f).Normal?
    ensures Marker(Obj(map["fields" := f])) == Marker(f) && Marker(f).Normal?
  {
    UnwrapWrapped(f);
  }

  /** A district choice keeps exactly the records whose `arrondissement` is
      that string, compared case-sensitively (a number never matches). */
  lemma DistrictCriterion(item: Val, d: string)
    requires d != ""
    ensures Matches(item, ByDistrict(d)) <==>
      !Nullish(item) && Prop(FieldsOf(item), "arrondissement") == Str(d)
  {
  }

  /** "oui" keeps the records open all day, "non" keeps all the others,
      including those without `ouvert_24h`. */
  lemma OpenCriterion(item: Val)
    ensures Matches(item, ByOpen("oui")) <==> !Nullish(item) && IsOpen(FieldsOf(item))
    ensures Matches(item, ByOpen("non")) <==> !Nullish(item) && !IsOpen(FieldsOf(item))
  {
  }

  /** Which `ouvert_24h` values count as open: a string reading "oui" in any
      case, or an array whose one element is such a string (it prints as that
      string); never a missing value, a number, a boolean or an object. */
  lemma IsOpenValues(fields: Val)
    ensures Nullish(Prop(fields, "ouvert_24h")) ==> !IsOpen(fields)
    ensures Prop(fields, "ouvert_24h").Str? ==> (IsOpen(fields) <==> Lower(Prop(fields, "ouvert_24h").s) == "oui")
    ensures Prop(fields, "ouvert_24h").Num? || Prop(fields, "ouvert_24h").Bool? || Prop(fields, "ouvert_24h").Obj?
            ==> !IsOpen(fields)
    ensures var v := Prop(fields, "ouvert_24h");
      v.Arr? && |v.items| == 1 && v.items[0].Str? ==> (IsOpen(fields) <==> Lower(v.items[0].s) == "oui")
  {
    var v := Prop(fields, "ouvert_24h");
    if v.Arr? && |v.items| == 1 && v.items[0].Str? {
      ToTextArrays(v.items[0], v.items[0]);
    }
    if v.Num? {
      var t := ToText(v);
      assert t[0] == '-' || '0' <= t[0] <= '9';
      assert Lower(t)[0] == t[0];
      assert "oui"[0] == 'o';
    } else if v.Bool? {
      assert |Lower(ToText(v))| != 3;
    } else if v.Obj? {
      assert |Lower(ToText(v))| != 3;
    }
  }

  /** The type control compares `type` only: `categorie` is never consulted. */
  lemma TypeCriterion(item: Val, t: string)
    requires t != ""
    ensures Matches(item, ByType(t)) <==> !Nullish(item) && Prop(FieldsOf(item), "type") == Str(t)
  {
  }

  /** A non-empty search keeps a record exactly when its four search fields
      are strings or missing and one of them, lower-cased, contains the
      lower-cased term; a non-string search field makes the filter throw.
      A blank term is searched for like any other. */
  lemma SearchCriterion(item: Val, term: string)
    requires term != ""
    ensures Keep(item, BySearch(term)).Thrown? <==> Nullish(item) || !Searchable(FieldsOf(item))
    ensures Matches(item, BySearch(term)) <==>
      !Nullish(item) && Searchable(FieldsOf(item))
      && exists k :: k in SearchKeys && TextMatches(Prop(FieldsOf(item), k), Lower(term))
  {
    if !Nullish(item) {
      var f := FieldsOf(item);
      if Matches(item, BySearch(term)) {
        var t := Lower(term);
        if TextMatches(Prop(f, "nom"), t) { assert SearchKeys[0] == "nom"; }
        else if TextMatches(Prop(f, "type"), t) { assert SearchKeys[1] == "type"; }
        else if TextMatches(Prop(f, "adresse"), t) { assert SearchKeys[2] == "adresse"; }
        else { assert SearchKeys[3] == "arrondissement"; }
      }
    }
  }

  /** The search is case-insensitive: "PARC" finds "Parc Monceau". */
  lemma SearchIgnoresCase()
    ensures Matches(Obj(map["nom" := Str("Parc Monceau")]), BySearch("PARC"))
  {
    var f := Obj(map["nom" := Str("Parc Monceau")]);
    assert Lower("PARC") == "parc";
    assert Lower("Parc Monceau") == "parc monceau";
    assert StartsWith("parc monceau", "parc");
  }

  // ---------------------------------------------------------------------------
  // Table rows

  /** One table row, in the order of `Columns`. */
  function Row(item: Val): Completion<seq<Val>>
  {
    match Unwrap(item)
    case Thrown => Thrown
    case Normal(f) =>
      Normal([
        Or(Prop(f, "nom"), Str(NotGiven)),
        Or(Or(Prop(f, "type"), Prop(f, "categorie")), Str(NotGiven)),
        Or(Prop(f, "adresse"), Str(NotGiven)),
        Or(Prop(f, "arrondissement"), Str(NotGiven)),
        Coalesce(Prop(f, "proportion_vegetation_haute"), Str(NotGiven + "%")),
        if IsOpen(f) then Str("Oui") else Str("Non"),
        Or(Prop(f, "horaires_periode"), Str(NotGiven))
      ])
  }

  /** `rows`: `filteredEspaces.map(...)`. */
  function Rows(filtered: seq<Val>): Completion<seq<seq<Val>>>
  {
    MapAll(filtered, item => Row(item))
  }

  /** Every row has one cell per column, and every cell but the vegetation
      one is non-blank. */
  lemma RowShape(item: Val)
    ensures Row(item).Thrown? <==> Nullish(item)
    ensures Row(item).Normal? ==> |Row(item).value| == |Columns|
    ensures Row(item).Normal? ==>
      forall i :: 0 <= i < |Columns| && i != 4 ==> Truthy(Row(item).value[i])
  {
  }

  /** The text cells show the field when it is truthy and "Non précisé"
      otherwise; the Type cell falls back to `categorie`; the vegetation cell
      keeps any value but `null`/missing; the "Ouvert 24h" cell agrees with
      the "oui"/"non" filter. */
  lemma RowCells(item: Val)
    requires !Nullish(item)
    ensures var cells, f := Row(item).value, FieldsOf(item);
      && ShowsOr(cells[0], Prop(f, "nom"), Str(NotGiven))
      && ShowsOr(cells[1], Or(Prop(f, "type"), Prop(f, "categorie")), Str(NotGiven))
      && ShowsOr(cells[2], Prop(f, "adresse"), Str(NotGiven))
      && ShowsOr(cells[3], Prop(f, "arrondissement"), Str(NotGiven))
      && (!Nullish(Prop(f, "proportion_vegetation_haute")) ==> cells[4] == Prop(f, "proportion_vegetation_haute"))
      && (Nullish(Prop(f, "proportion_vegetation_haute")) ==> cells[4] == Str("Non précisé%"))
      && (cells[5] == Str("Oui") || cells[5] == Str("Non"))
      && (cells[5] == Str("Oui") <==> Matches(item, ByOpen("oui")))
      && (cells[5] == Str("Non") <==> Matches(item, ByOpen("non")))
      && ShowsOr(cells[6], Prop(f, "horaires_periode"), Str(NotGiven))
  {
  }

  /** The Type cell may show a `categorie` that the type filter cannot find. */
  lemma TypeCellIsNotTypeFilter()
    ensures Row(Obj(map["categorie" := Str("Bois")])).value[1] == Str("Bois")
    ensures !Matches(Obj(map["categorie" := Str("Bois")]), ByType("Bois"))
  {
  }

  lemma RowsShape(filtered: seq<Val>)
    ensures Rows(filtered).Normal? <==> forall i :: 0 <= i < |filtered| ==> !Nullish(filtered[i])
    ensures Rows(filtered).Normal? ==>
      |Rows(filtered).value| == |filtered|
      && forall i :: 0 <= i < |filtered| ==>
           Rows(filtered).value[i] == Row(filtered[i]).value && |Rows(filtered).value[i]| == |Columns|
  {
    forall i | 0 <= i < |filtered| {
      RowShape(filtered[i]);
    }
  }
  /** The records a completed filter keeps can all be shown: mapping them to
      rows never throws. */
  lemma FilteredRowsComplete(records: Val, c: Criteria)
    requires FilteredEspaces(records, c).Normal?
    ensures Rows(FilteredEspaces(records, c).value).Normal?
  {
    var kept := FilteredEspaces(records, c).value;
    forall i | 0 <= i < |kept| ensures !Nullish(kept[i]) {
      assert Matches(kept[i], c);
    }
    RowsShape(kept);
  }


  // ---------------------------------------------------------------------------
  // Map items

  /** The map item of lines 154-161: no identifier, the name as title. */
  function Marker(item: Val): Completion<MapItem>
  {
    match Unwrap(item)
    case Thrown => Thrown
    case Normal(f) =>
      Normal(MapItem(Undefined, Prop(f, "nom"), Or(Prop(f, "adresse"), Str("Non précisée")),
                     Or(Coordinate(f, "lat"), Num(0)), Or(Coordinate(f, "lon"), Num(0))))
  }

  /** The description is the address, else "Non précisée", so never blank;
      each coordinate is the record's own when truthy and 0 otherwise,
      independently of the other. */
  lemma MarkerShape(item: Val)
    ensures Marker(item).Thrown? <==> Nullish(item)
    ensures Marker(item).Normal? ==>
      var m, f := Marker(item).value, FieldsOf(item);
      && m.identifiant == Undefined && m.title == Prop(f, "nom")
      && ShowsOr(m.description, Prop(f, "adresse"), Str("Non précisée")) && Truthy(m.description)
      && (Truthy(Coordinate(f, "lat")) ==> m.lat == Coordinate(f, "lat"))
      && (!Truthy(Coordinate(f, "lat")) ==> m.lat == Num(0))
      && (Truthy(Coordinate(f, "lon")) ==> m.lon == Coordinate(f, "lon"))
      && (!Truthy(Coordinate(f, "lon")) ==> m.lon == Num(0))
  {
  }
}
