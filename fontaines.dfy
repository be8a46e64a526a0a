/** The drinking-fountains view (src/Fontaines.jsx): its filter, its table
    rows, its map items and the district values its selector offers.
    Pagination is in module Pagination. */
module Fontaines {
  import opened JsValues
  import opened Filtering
  import opened MapItems

  const Columns: seq<string> := ["Type d'objet", "Modèle", "Adresse", "Commune", "Disponible", "Coordonnées"]

  /** The value of the n-th option of the district selector. */
  function DistrictValue(n: nat): string
  {
    "PARIS " + NatText(n) + "EME ARRONDISSEMENT"
  }

  /** `v` is "PARIS ", then the decimal text of `n` (digits reading as `n`,
      without a leading zero), then "EME ARRONDISSEMENT". */
  predicate DistrictReads(v: string, n: nat) {
    |v| > 24 && v[..6] == "PARIS " && v[|v| - 18..] == "EME ARRONDISSEMENT"
    && IsDigits(v[6..|v| - 18]) && ParseNat(v[6..|v| - 18]) == n && v[6] != '0'
  }

  /** The selectable district values, for n from 1 to 20: the i-th names
      district i + 1, so no two options share a value. */
  function DistrictOptions(): (options: seq<string>)
    ensures |options| == 20
    ensures forall i :: 0 <= i < 20 ==> DistrictReads(options[i], i + 1)
    ensures forall i, j :: 0 <= i < 20 && 0 <= j < 20 && i != j ==> options[i] != options[j]
  {
    DistrictValuesRead();
    seq(20, i requires 0 <= i < 20 => DistrictValue(i + 1))
  }

  lemma DistrictValueReads(n: nat)
    requires n > 0
    ensures DistrictReads(DistrictValue(n), n)
  {
    var t := NatText(n);
    var v := DistrictValue(n);
    assert v == "PARIS " + t + "EME ARRONDISSEMENT";
    assert v[6..|v| - 18] == t;
    assert v[6] == t[0];
    ParseNatText(n);
    NatTextNoLeadingZero(n);
  }

  lemma DistrictValuesRead()
    ensures forall n: nat :: 1 <= n <= 20 ==> DistrictReads(DistrictValue(n), n)
  {
    forall n: nat | 1 <= n <= 20 ensures DistrictReads(DistrictValue(n), n) {
      DistrictValueReads(n);
    }
  }

  /** The two filter controls and the search; `""` imposes nothing. */
  datatype Criteria = Criteria(arrondissement: string, disponible: string, searchTerm: string)

  const NoCriteria := Criteria("", "", "")

  function ByDistrict(d: string): Criteria { Criteria(d, "", "") }
  function ByAvailability(a: string): Criteria { Criteria("", a, "") }
  function BySearch(s: string): Criteria { Criteria("", "", s) }

  /** The address shown to the search: the even number, else the odd one, else
      nothing, a space, then the street, else nothing. It is always a string. */
  function SearchAddress(f: Val): string
  {
    ToText(Or(Or(Prop(f, "no_voirie_pair"), Prop(f, "no_voirie_impair")), Str("")))
      + " " + ToText(Or(Prop(f, "voie"), Str("")))
  }

  /** The search of lines 51-58: all four matches are computed first. */
  function Search(f: Val, term: string): Completion<bool>
  {
    var ty := LowerIncludes(Prop(f, "type_objet"), term);
    var modele := LowerIncludes(Prop(f, "modele"), term);
    var adresse := Contains(Lower(SearchAddress(f)), term);
    var commune := LowerIncludes(Prop(f, "commune"), term);
    if ty.Thrown? || modele.Thrown? || commune.Thrown? then Thrown
    else Normal(ty.value || modele.value || adresse || commune.value)
  }

  /** The callback given to `fontaines.filter`. */
  function Keep(item: Val, c: Criteria): Completion<bool>
  {
    match Unwrap(item)
    case Thrown => Thrown
    case Normal(fields) =>
      if c.arrondissement != "" && Prop(fields, "commune") != Str(c.arrondissement) then Normal(false)
      else if c.disponible != "" && Prop(fields, "dispo") != Str(c.disponible) then Normal(false)
      else if c.searchTerm != "" then Search(fields, Lower(c.searchTerm))
      else Normal(true)
  }

  function KeepBy(c: Criteria): Val -> Completion<bool> {
    item => Keep(item, c)
  }

  predicate Matches(item: Val, c: Criteria) {
    Keep(item, c) == Normal(true)
  }

  /** `filteredFontaines`: `fontaines.filter(...)`. */
  function FilteredFontaines(fontaines: Val, c: Criteria): (r: Completion<seq<Val>>)
    ensures r.Normal? <==> fontaines.Arr? && forall i :: 0 <= i < |fontaines.items| ==> Keep(fontaines.items[i], c).Normal?
    ensures r.Normal? ==> r.value == Select(fontaines.items, Accepts(KeepBy(c)))
    ensures r.Normal? ==> IsSubsequence(r.value, fontaines.items)
    ensures r.Normal? ==> forall x :: x in r.value <==> x in fontaines.items && Matches(x, c)
  {
    FilterArray(fontaines, KeepBy(c))
  }

  // ---------------------------------------------------------------------------
  // Filter properties

  lemma FilterWithoutCriteria(xs: seq<Val>)
    ensures (forall i :: 0 <= i < |xs| ==> !Nullish(xs[i])) ==> Filter(xs, KeepBy(NoCriteria)) == Normal(xs)
    ensures (exists i :: 0 <= i < |xs| && Nullish(xs[i])) ==> Filter(xs, KeepBy(NoCriteria)).Thrown?
  {
    if forall i :: 0 <= i < |xs| ==> !Nullish(xs[i]) {
      FilterIdentity(xs, KeepBy(NoCriteria));
    }
  }

  lemma FilterTwiceIsFilterOnce(xs: seq<Val>, c: Criteria)
    requires Filter(xs, KeepBy(c)).Normal?
    ensures Filter(Filter(xs, KeepBy(c)).value, KeepBy(c)) == Filter(xs, KeepBy(c))
  {
    FilterIdempotent(xs, KeepBy(c));
  }

  lemma MatchesIsConjunction(item: Val, c: Criteria)
    ensures Matches(item, c) <==>
      Matches(item, ByDistrict(c.arrondissement)) && Matches(item, ByAvailability(c.disponible))
      && Matches(item, BySearch(c.searchTerm))
  {
  }

  lemma FilterIsIntersection(xs: seq<Val>, c: Criteria)
    ensures Select(xs, Accepts(KeepBy(c))) ==
      Select(Select(Select(xs,
        Accepts(KeepBy(ByDistrict(c.arrondissement)))),
        Accepts(KeepBy(ByAvailability(c.disponible)))),
        Accepts(KeepBy(BySearch(c.searchTerm))))
    ensures forall x :: x in Select(xs, Accepts(KeepBy(c))) <==>
      x in Select(xs, Accepts(KeepBy(ByDistrict(c.arrondissement))))
      && x in Select(xs, Accepts(KeepBy(ByAvailability(c.disponible))))
      && x in Select(xs, Accepts(KeepBy(BySearch(c.searchTerm))))
  {
    var pd := Accepts(KeepBy(ByDistrict(c.arrondissement)));
    var pa := Accepts(KeepBy(ByAvailability(c.disponible)));
    var ps := Accepts(KeepBy(BySearch(c.searchTerm)));
    var p2 := x => pd(x) && pa(x);
    forall x ensures Accepts(KeepBy(c))(x) == (p2(x) && ps(x)) {
      MatchesIsConjunction(x, c);
    }
    SelectAnd(xs, pd, pa, p2);
    SelectAnd(xs, p2, ps, Accepts(KeepBy(c)));
    forall x ensures x in Select(xs, Accepts(KeepBy(c))) <==>
      x in Select(xs, pd) && x in Select(xs, pa) && x in Select(xs, ps)
    {
      MatchesIsConjunction(x, c);
      SelectMembership(xs, Accepts(KeepBy(c)), x);
      SelectMembership(xs, pd, x);
      SelectMembership(xs, pa, x);
      SelectMembership(xs, ps, x);
    }
  }

  /** The district choice compares `commune` exactly; the availability choice
      compares `dispo` exactly. */
  lemma ExactCriteria(item: Val, s: string)
    requires s != ""
    ensures Matches(item, ByDistrict(s)) <==> !Nullish(item) && Prop(FieldsOf(item), "commune") == Str(s)
    ensures Matches(item, ByAvailability(s)) <==> !Nullish(item) && Prop(FieldsOf(item), "dispo") == Str(s)
  {
  }

  /** A non-empty search keeps a record exactly when `type_objet`, `modele`
      and `commune` are strings or missing and the lower-cased term occurs in
      one of them or in the composed address; the address alone never throws. */
  lemma SearchCriterion(item: Val, term: string)
    requires term != ""
    ensures !Nullish(item) ==>
      var f := FieldsOf(item);
      (Keep(item, BySearch(term)).Thrown? <==>
        exists k :: k in ["type_objet", "modele", "commune"] && !Nullish(Prop(f, k)) && !Prop(f, k).Str?)
    ensures Matches(item, BySearch(term)) <==>
      !Nullish(item) &&
      var f, t := FieldsOf(item), Lower(term);
      (forall k :: k in ["type_objet", "modele", "commune"] ==> Nullish(Prop(f, k)) || Prop(f, k).Str?)
      && (TextMatches(Prop(f, "type_objet"), t) || TextMatches(Prop(f, "modele"), t)
          || Contains(Lower(SearchAddress(f)), t) || TextMatches(Prop(f, "commune"), t))
  {
    if !Nullish(item) {
      var f := FieldsOf(item);
      var keys := ["type_objet", "modele", "commune"];
      if Keep(item, BySearch(term)).Thrown? {
        if !Nullish(Prop(f, "type_objet")) && !Prop(f, "type_objet").Str? {
          assert keys[0] == "type_objet";
        } else if !Nullish(Prop(f, "modele")) && !Prop(f, "modele").Str? {
          assert keys[1] == "modele";
        } else {
          assert keys[2] == "commune";
        }
      }
    }
  }

  /** The composed address always holds a space, so a one-space search keeps
      every record whose other search fields cannot throw. */
  lemma SpaceFindsEveryFountain(item: Val)
    requires !Nullish(item)
    requires forall k :: k in ["type_objet", "modele", "commune"] ==>
      Nullish(Prop(FieldsOf(item), k)) || Prop(FieldsOf(item), k).Str?
    ensures Matches(item, BySearch(" "))
  {
    var f := FieldsOf(item);
    var num := ToText(Or(Or(Prop(f, "no_voirie_pair"), Prop(f, "no_voirie_impair")), Str("")));
    var address := SearchAddress(f);
    assert address[|num|] == ' ';
    assert Lower(" ") == " ";
    assert OccursAt(Lower(address), " ", |num|);
    ContainsAt(Lower(address), " ");
    SearchCriterion(item, " ");
  }

  /** The composed address finds a fountain by its street number and street
      even when the record has no `type_objet`, `modele` or `commune`. */
  lemma SearchFindsComposedAddress()
    ensures Matches(Obj(map["no_voirie_impair" := Num(7), "voie" := Str("RUE DU BAC")]), BySearch("7 rue"))
  {
    var f := Obj(map["no_voirie_impair" := Num(7), "voie" := Str("RUE DU BAC")]);
    assert Unwrap(f) == Normal(f) by {
      assert Prop(f, "fields") == Undefined;
    }
    assert Lower("7 rue") == "7 rue";
    ComposedAddressMatches(f);
  }

  lemma ComposedAddressMatches(f: Val)
    requires f == Obj(map["no_voirie_impair" := Num(7), "voie" := Str("RUE DU BAC")])
    ensures Search(f, "7 rue") == Normal(true)
  {
    ComposedAddress(f);
    LowerAddressStartsWithTerm();
    assert Prop(f, "type_objet") == Undefined;
    assert Prop(f, "modele") == Undefined;
    assert Prop(f, "commune") == Undefined;
  }

  lemma ComposedAddress(f: Val)
    requires f == Obj(map["no_voirie_impair" := Num(7), "voie" := Str("RUE DU BAC")])
    ensures SearchAddress(f) == "7 RUE DU BAC"
  {
    assert ToText(Num(7)) == "7" by {
      assert NatText(7) == [DigitChar(7)];
    }
  }

  lemma LowerAddressStartsWithTerm()
    ensures Contains(Lower("7 RUE DU BAC"), "7 rue")
  {
    assert Lower("7 RUE DU BAC")[..5] == "7 rue";
  }

  // ---------------------------------------------------------------------------
  // Table rows

  /** The address cell: even number, else odd number, else nothing, then the
      street, else "Non précisée". */
  function AddressCell(f: Val): Val
  {
    Str(ToText(Or(Or(Prop(f, "no_voirie_pair"), Prop(f, "no_voirie_impair")), Str("")))
        + " " + ToText(Or(Prop(f, "voie"), Str("Non précisée"))))
  }

  function Row(item: Val): Completion<seq<Val>>
  {
    match Unwrap(item)
    case Thrown => Thrown
    case Normal(f) =>
      Normal([
        Or(Prop(f, "type_objet"), Str("Non précisé")),
        Or(Prop(f, "modele"), Str("Non précisé")),
        AddressCell(f),
        Or(Prop(f, "commune"), Str("Non précisée")),
        Or(Prop(f, "dispo"), Str("Non précisé")),
        CoordinatesCell(f)
      ])
  }

  /** `rows`: `filteredFontaines.map(...)`. */
  function Rows(filtered: seq<Val>): Completion<seq<seq<Val>>>
  {
    MapAll(filtered, item => Row(item))
  }

  /** The number part of an address: the even street number, else the odd
      one, else nothing. */
  function NumberText(f: Val): string
  {
    var pair, odd := Prop(f, "no_voirie_pair"), Prop(f, "no_voirie_impair");
    if Truthy(pair) then ToText(pair) else if Truthy(odd) then ToText(odd) else ""
  }

  /** The street part of an address cell: the street, else "Non précisée". */
  function StreetText(f: Val): string
  {
    var voie := Prop(f, "voie");
    if Truthy(voie) then ToText(voie) else "Non précisée"
  }

  /** The address cell is never blank: the number part, one space, then the
      street part. */
  lemma AddressCellShape(f: Val)
    ensures AddressCell(f).Str? && Truthy(AddressCell(f))
    ensures AddressCell(f).s == NumberText(f) + " " + StreetText(f)
    ensures !Truthy(Prop(f, "no_voirie_pair")) && !Truthy(Prop(f, "no_voirie_impair")) && !Truthy(Prop(f, "voie")) ==>
      AddressCell(f) == Str(" Non précisée")
  {
  }

  /** Every row has one cell per column and no blank cell. */
  lemma RowShape(item: Val)
    ensures Row(item).Thrown? <==> Nullish(item)
    ensures Row(item).Normal? ==> |Row(item).value| == |Columns|
    ensures Row(item).Normal? ==> forall i :: 0 <= i < |Columns| ==> Truthy(Row(item).value[i])
  {
    if Row(item).Normal? {
      AddressCellShape(FieldsOf(item));
      CoordinatesCellShape(FieldsOf(item));
    }
  }

  /** A falsy field shows its "Non précisé(e)" placeholder; the address and
      coordinates cells are composed from several fields. */
  lemma RowCells(item: Val)
    requires !Nullish(item)
    ensures var cells, f := Row(item).value, FieldsOf(item);
      && ShowsOr(cells[0], Prop(f, "type_objet"), Str("Non précisé"))
      && ShowsOr(cells[1], Prop(f, "modele"), Str("Non précisé"))
      && cells[2] == AddressCell(f)
      && ShowsOr(cells[3], Prop(f, "commune"), Str("Non précisée"))
      && ShowsOr(cells[4], Prop(f, "dispo"), Str("Non précisé"))
      && cells[5] == CoordinatesCell(f)
  {
  }

  lemma RowsShape(filtered: seq<Val>)
    ensures Rows(filtered).Normal? <==> forall i :: 0 <= i < |filtered| ==> !Nullish(filtered[i])
    ensures Rows(filtered).Normal? ==>
      |Rows(filtered).value| == |filtered|
      && forall i :: 0 <= i < |filtered| ==>
           Rows(filtered).value[i] == Row(filtered[i]).value && |Rows(filtered).value[i]| == |Columns|
  {
    forall i | 0 <= i < |filtered| {
      RowShape(filtered[i]);
    }
  }
  /** The records a completed filter keeps can all be shown: mapping them to
      rows never throws. */
  lemma FilteredRowsComplete(records: Val, c: Criteria)
    requires FilteredFontaines(records, c).Normal?
    ensures Rows(FilteredFontaines(records, c).value).Normal?
  {
    var kept := FilteredFontaines(records, c).value;
    forall i | 0 <= i < |kept| ensures !Nullish(kept[i]) {
      assert Matches(kept[i], c);
    }
    RowsShape(kept);
  }


  // ---------------------------------------------------------------------------
  // Map items

  /** The map item of lines 117-125 (built the same way at src/App.jsx:22-30):
      `gid` as identifier, `type_objet` as title, the coordinates as they are. */
  function Marker(item: Val): Completion<MapItem>
  {
    match Unwrap(item)
    case Thrown => Thrown
    case Normal(f) =>
      Normal(MapItem(Prop(f, "gid"), Prop(f, "type_objet"), Or(Prop(f, "voie"), Str("Non précisée")),
                     Coordinate(f, "lat"), Coordinate(f, "lon")))
  }

  /** Nothing is coerced but the description, which is the street, else
      "Non précisée"; a record without `geo_point_2d` yields
      `[undefined, undefined]`. */
  lemma MarkerShape(item: Val)
    ensures Marker(item).Thrown? <==> Nullish(item)
    ensures Marker(item).Normal? ==>
      var m, f := Marker(item).value, FieldsOf(item);
      && m.identifiant == Prop(f, "gid") && m.title == Prop(f, "type_objet")
      && Truthy(m.description)
      && ShowsOr(m.description, Prop(f, "voie"), Str("Non précisée"))
      && m.lat == Coordinate(f, "lat") && m.lon == Coordinate(f, "lon")
      && (Nullish(Prop(f, "geo_point_2d")) ==> m.lat == Undefined && m.lon == Undefined)
  {
  }
}
