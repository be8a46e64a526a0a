/** The home-page map (`CartePoints` in src/App.jsx): it fetches the first
    page of fountains and of green spaces, projects both to map items and
    shows the fountains followed by the green spaces. */
module App {
  import opened JsValues
  import opened Filtering
  import opened MapItems
  import opened Api
  import Fontaines

  /** A fountain point is built exactly like the fountains view's map item. */
  function FountainPoint(item: Val): Completion<MapItem>
  {
    Fontaines.Marker(item)
  }

  /** A green-space point: `identifiant`, the name or "Espace vert", the type
      or "Non précisée", the coordinates as they are. */
  function EspacePoint(item: Val): Completion<MapItem>
  {
    match Unwrap(item)
    case Thrown => Thrown
    case Normal(f) =>
      Normal(MapItem(Prop(f, "identifiant"), Or(Prop(f, "nom"), Str("Espace vert")),
                     Or(Prop(f, "type"), Str("Non précisée")), Coordinate(f, "lat"), Coordinate(f, "lon")))
  }

  /** `.filter(Boolean)` over the projected items. */
  function KeepTruthy(points: seq<MapItem>): seq<MapItem>
  {
    Select(points, p => Truthy(AsObject(p)))
  }

  /** The body of the `try` block: both projections, then `[...fontaines, ...espaces]`. */
  function LoadPoints(fontaines: Val, espaces: Val): Completion<seq<MapItem>>
  {
    match MapArray(fontaines, FountainPoint)
    case Thrown => Thrown
    case Normal(fs) =>
      match MapArray(espaces, EspacePoint)
      case Thrown => Thrown
      case Normal(es) => Normal(KeepTruthy(fs) + KeepTruthy(es))
  }

  /** `points` after the effect has run with the two fetch outcomes: the new
      list, or the previous one when the `try` block threw (the error is
      caught and only logged). */
  function PointsAfter(previous: seq<MapItem>, fontaines: Response, espaces: Response): seq<MapItem>
  {
    match LoadPoints(Results(fontaines), Results(espaces))
    case Normal(points) => points
    case Thrown => previous
  }

  /** Every projected item is an object, so `.filter(Boolean)` removes nothing. */
  lemma FilterBooleanKeepsAll(points: seq<MapItem>)
    ensures KeepTruthy(points) == points
  {
    SelectAll(points, p => Truthy(AsObject(p)));
  }

  /** The points are all fountain points, in order, then all green-space
      points, in order; the effect succeeds exactly when both fetches gave
      arrays without `null` records. */
  lemma PointsLayout(fontaines: Val, espaces: Val)
    ensures LoadPoints(fontaines, espaces).Normal? <==>
      fontaines.Arr? && espaces.Arr?
      && (forall i :: 0 <= i < |fontaines.items| ==> !Nullish(fontaines.items[i]))
      && (forall i :: 0 <= i < |espaces.items| ==> !Nullish(espaces.items[i]))
    ensures LoadPoints(fontaines, espaces).Normal? ==>
      var points, nf := LoadPoints(fontaines, espaces).value, |fontaines.items|;
      && |points| == nf + |espaces.items|
      && (forall i :: 0 <= i < nf ==> points[i] == FountainPoint(fontaines.items[i]).value)
      && (forall j :: 0 <= j < |espaces.items| ==> points[nf + j] == EspacePoint(espaces.items[j]).value)
  {
    if fontaines.Arr? && espaces.Arr? {
      var fs := MapAll(fontaines.items, FountainPoint);
      var es := MapAll(espaces.items, EspacePoint);
      if fs.Normal? && es.Normal? {
        FilterBooleanKeepsAll(fs.value);
        FilterBooleanKeepsAll(es.value);
      }
    }
  }

  /** A failed fetch (which resolves to `undefined`) makes `.map` throw, and
      the map keeps showing the previous points. */
  lemma FailedFetchKeepsPoints(previous: seq<MapItem>, fontaines: Response, espaces: Response)
    requires fontaines.TransportFailure? || espaces.TransportFailure?
    ensures PointsAfter(previous, fontaines, espaces) == previous
  {
  }

  /** The green-space point's title and description are never blank; the
      coordinates are not coerced. */
  lemma EspacePointShape(item: Val)
    ensures EspacePoint(item).Thrown? <==> Nullish(item)
    ensures EspacePoint(item).Normal? ==>
      var m, f := EspacePoint(item).value, FieldsOf(item);
      && m.identifiant == Prop(f, "identifiant")
      && Truthy(m.title) && Truthy(m.description)
      && (Truthy(Prop(f, "nom")) ==> m.title == Prop(f, "nom"))
      && (!Truthy(Prop(f, "nom")) ==> m.title == Str("Espace vert"))
      && (Truthy(Prop(f, "type")) ==> m.description == Prop(f, "type"))
      && (!Truthy(Prop(f, "type")) ==> m.description == Str("Non précisée"))
      && m.lat == Coordinate(f, "lat") && m.lon == Coordinate(f, "lon")
  {
  }

  /** A fountain point: `gid`, `type_objet`, the street or "Non précisée", and
      the raw coordinates. */
  lemma FountainPointShape(item: Val)
    ensures FountainPoint(item).Thrown? <==> Nullish(item)
    ensures FountainPoint(item).Normal? ==>
      var m, f := FountainPoint(item).value, FieldsOf(item);
      && m.identifiant == Prop(f, "gid") && m.title == Prop(f, "type_objet")
      && (Truthy(Prop(f, "voie")) ==> m.description == Prop(f, "voie"))
      && (!Truthy(Prop(f, "voie")) ==> m.description == Str("Non précisée"))
      && m.lat == Coordinate(f, "lat") && m.lon == Coordinate(f, "lon")
  {
  }
}
