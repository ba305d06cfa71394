/** The country record the newer generation receives from its data crate:
    the ISO code, the display name, the enclave flag that gives priority in
    point queries and draw order, and the polygons of the country outline.
    The flag image bytes are carried but never inspected here, so the model
    leaves them out. */
module CountryRecord {
  import opened Geometry

  datatype Country = Country(isoA2: string, name: string, isEnclave: bool, polygons: seq<Polygon>)
}
