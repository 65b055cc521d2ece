/** The map layer catalogue (/map/layers) and the GeoJSON endpoint that
    serves each layer (/map/geojson/<layer_id>) in backend/app/api/routes.py. */
module Layers {

  datatype Layer = Layer(id: string, kind: string, name: string, url: string)

  /** The prefix of every layer's data url. */
  const GeoJsonRoute: string := "/api/map/geojson/"

  /** The catalogue returned by /map/layers, in its order. */
  const Catalogue: seq<Layer> := [
    Layer("india", "geojson", "India Outline", "/api/map/geojson/india"),
    Layer("mh", "geojson", "Maharashtra", "/api/map/geojson/mh"),
    Layer("mp", "geojson", "Madhya Pradesh", "/api/map/geojson/mp"),
    Layer("od", "geojson", "Odisha", "/api/map/geojson/od"),
    Layer("tr", "geojson", "Tripura", "/api/map/geojson/tr"),
    Layer("fra_claims", "geojson", "FRA Claims (sample)", "/api/map/geojson/fra_claims")
  ]

  /** What /map/geojson/<layer_id> answers: the contents of an asset file
      (the file read itself is not modelled), or 404 unknown_layer. */
  datatype GeoJsonReply = Asset(file: string) | UnknownLayer
  {
    function Status(): int {
      if Asset? then 200 else 404
    }
  }

  /** get_geojson: one branch per known layer id. */
  function GetGeoJson(layerId: string): (r: GeoJsonReply)
    ensures r.Asset? ==> r.file != []
  {
    if layerId == "india" then Asset("india.geojson")
    else if layerId == "mh" then Asset("mh.geojson")
    else if layerId == "mp" then Asset("mp.geojson")
    else if layerId == "od" then Asset("od.geojson")
    else if layerId == "tr" then Asset("tr.geojson")
    else if layerId == "fra_claims" then Asset("fra_claims_sample.geojson")
    else UnknownLayer
  }

  /** The file that holds a layer's data: the id with ".geojson" appended,
      except the claims layer, which is served from its sample file. */
  function AssetFile(layerId: string): string {
    if layerId == "fra_claims" then "fra_claims_sample.geojson" else layerId + ".geojson"
  }

  predicate Listed(layerId: string) {
    exists i :: 0 <= i < |Catalogue| && Catalogue[i].id == layerId
  }

  /** Every catalogued layer points at the GeoJSON route for its own id. */
  lemma CatalogueUrls()
    ensures forall i :: 0 <= i < |Catalogue| ==> Catalogue[i].url == GeoJsonRoute + Catalogue[i].id
    ensures forall i, j :: 0 <= i < j < |Catalogue| ==> Catalogue[i].id != Catalogue[j].id
  {
  }

  /** The endpoint serves exactly the catalogued ids, each from its asset
      file; any other id is a 404. */
  lemma DispatchAgreesWithCatalogue(layerId: string)
    ensures GetGeoJson(layerId).Asset? <==> Listed(layerId)
    ensures Listed(layerId) ==> GetGeoJson(layerId) == Asset(AssetFile(layerId))
    ensures !Listed(layerId) ==> GetGeoJson(layerId).Status() == 404
  {
    if layerId in {"india", "mh", "mp", "od", "tr", "fra_claims"} {
      var i := if layerId == "india" then 0 else if layerId == "mh" then 1
               else if layerId == "mp" then 2 else if layerId == "od" then 3
               else if layerId == "tr" then 4 else 5;
      assert Catalogue[i].id == layerId;
    }
  }
}
