/** The items handed to the map component (src/components/map.jsx): an
    identifier, a popup title and description, and a `[lat, lon]` pair. */
module MapItems {
  import opened JsValues

  datatype MapItem = MapItem(identifiant: Val, title: Val, description: Val, lat: Val, lon: Val)

  /** `fields.geo_point_2d?.lat` (or `?.lon`). */
  function Coordinate(fields: Val, axis: string): Val
  {
    OptProp(Prop(fields, "geo_point_2d"), axis)
  }

  /** The table cell `"<lat>, <lon>"`, each falsy component shown as "-". */
  function CoordinatesCell(fields: Val): Val
  {
    Str(ToText(Or(Coordinate(fields, "lat"), Str("-"))) + ", " + ToText(Or(Coordinate(fields, "lon"), Str("-"))))
  }

  /** The coordinates cell is never blank: the latitude's text, ", ", then
      the longitude's text, each component replaced by "-" on its own when it
      is falsy. */
  lemma CoordinatesCellShape(fields: Val)
    ensures Truthy(CoordinatesCell(fields))
    ensures var cell, lat, lon := CoordinatesCell(fields).s, Coordinate(fields, "lat"), Coordinate(fields, "lon");
      var latText := if Truthy(lat) then ToText(lat) else "-";
      var lonText := if Truthy(lon) then ToText(lon) else "-";
      cell == latText + ", " + lonText
  {
  }

  /** The map item as the JavaScript object literal it is built as; a view
      that does not set `identifiant` leaves it `undefined`. */
  function AsObject(m: MapItem): (v: Val)
    ensures v.Obj? && Truthy(v)
  {
    Obj(map["identifiant" := m.identifiant, "title" := m.title,
            "description" := m.description, "geolocation" := Arr([m.lat, m.lon])])
  }
}
