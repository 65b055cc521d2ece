/** The WebGIS map view of the front end (WebGISMap in
    frontend/src/App.jsx): loading the catalogued layers, the state and
    status filter over the claims layer, and the claim colours. */
module MapView {
  import opened Common
  import opened Layers

  /** The properties of a claim feature that the view reads, each missing
      or present, and its point coordinates as the text they print as (a
      missing geometry is None; a short array leaves a coordinate missing). */
  datatype Feature = Feature(
    claimId: Option<string>,
    claimant: Option<string>,
    state: Option<string>,
    status: Option<string>,
    coordinates: Option<seq<Option<string>>>)

  /** A loaded GeoJSON document; a missing `features` member is None. */
  datatype GeoJson = GeoJson(features: Option<seq<Feature>>)

  /** `gj.features || []` */
  function FeaturesOf(gj: GeoJson): seq<Feature> {
    gj.features.GetOr([])
  }

  /** The filter value that lets everything through. */
  const All: string := "all"

  /** The filter predicate: 'all', or the property equal to the choice,
      for both the state and the status. */
  predicate Keep(f: Feature, filterState: string, filterStatus: string) {
    (filterState == All || f.state == Some(filterState))
    && (filterStatus == All || f.status == Some(filterStatus))
  }

  /** The claims the map shows (and the GeoJSON export writes). */
  function Filter(fs: seq<Feature>, filterState: string, filterStatus: string): (r: seq<Feature>)
    ensures |r| <= |fs|
  {
    if fs == [] then []
    else
      var init := Filter(fs[..|fs| - 1], filterState, filterStatus);
      if Keep(fs[|fs| - 1], filterState, filterStatus) then init + [fs[|fs| - 1]] else init
  }

  /** A single claim is shown exactly when it matches. */
  lemma FilterSingle(f: Feature, st: string, su: string)
    ensures Filter([f], st, su) == if Keep(f, st, su) then [f] else []
  {
    assert [f][..0] == [];
  }

  /** Filtering distributes over concatenation. With FilterSingle this fixes
      the result as the matching claims in their input order, each as often
      as it occurs. */
  lemma {:induction false} FilterAppend(a: seq<Feature>, b: seq<Feature>, st: string, su: string)
    ensures Filter(a + b, st, su) == Filter(a, st, su) + Filter(b, st, su)
  {
    if b == [] {
      assert a + b == a;
    } else {
      var b0 := b[..|b| - 1];
      FilterAppend(a, b0, st, su);
      assert (a + b)[..|a + b| - 1] == a + b0;
      assert (a + b)[|a + b| - 1] == b[|b| - 1];
    }
  }

  /** Every shown claim matches, and a claim is shown exactly when it is in
      the input and matches. */
  lemma {:induction false} FilterKeepsMatches(fs: seq<Feature>, st: string, su: string)
    ensures forall i :: 0 <= i < |Filter(fs, st, su)| ==> Keep(Filter(fs, st, su)[i], st, su)
    ensures forall f :: f in Filter(fs, st, su) <==> f in fs && Keep(f, st, su)
  {
    if fs != [] {
      var init := fs[..|fs| - 1];
      FilterKeepsMatches(init, st, su);
      assert fs == init + [fs[|fs| - 1]];
    }
  }

  /** With both choices at 'all' every claim is shown. */
  lemma {:induction false} AllShowsEverything(fs: seq<Feature>)
    ensures Filter(fs, All, All) == fs
  {
    if fs != [] {
      AllShowsEverything(fs[..|fs| - 1]);
      assert fs == fs[..|fs| - 1] + [fs[|fs| - 1]];
    }
  }

  // ----- colours -----

  const Green: string := "#22c55e"
  const Red: string := "#ef4444"
  const Yellow: string := "#eab308"
  const Blue: string := "#60a5fa"

  /** `status || 'pending'` */
  function StatusOrPending(status: Option<string>): string {
    if Truthy(status) then status.value else "pending"
  }

  /** The stroke colour of a layer's feature (layerStyle): the outline is
      blue, claims are coloured by status, other layers green. */
  function LayerColour(layerId: string, status: Option<string>): (r: string)
    ensures r in {Blue, Green, Red, Yellow}
    ensures r == Blue <==> layerId == "india"
    ensures layerId != "india" && layerId != "fra_claims" ==> r == Green
  {
    if layerId == "india" then Blue
    else if layerId == "fra_claims" then
      var s := StatusOrPending(status);
      if s == "approved" then Green else if s == "rejected" then Red else Yellow
    else Green
  }

  /** A claim is green exactly when approved, red exactly when rejected, and
      yellow otherwise, a missing or empty status counting as pending. */
  lemma ClaimColours(status: Option<string>)
    ensures LayerColour("fra_claims", status) == Green <==> status == Some("approved")
    ensures LayerColour("fra_claims", status) == Red <==> status == Some("rejected")
    ensures LayerColour("fra_claims", status) == Yellow <==>
      status != Some("approved") && status != Some("rejected")
    ensures !Truthy(status) ==> LayerColour("fra_claims", status) == Yellow
  {
  }

  // ----- loading the layers -----

  /** The path requested for a layer url: a url starting with "/api/" loses
      its first four characters, because the client's base already ends in
      /api, so base and path together name the url again. */
  function RequestPath(url: string): (r: string)
    ensures |url| >= 5 && url[..5] == "/api/" ==> "/api" + r == url && r != [] && r[0] == '/'
    ensures !(|url| >= 5 && url[..5] == "/api/") ==> r == url
  {
    if |url| >= 5 && url[..5] == "/api/" then url[4..] else url
  }

  /** Every catalogued layer is requested at /map/geojson/<id>. */
  lemma CataloguePaths()
    ensures forall i :: 0 <= i < |Catalogue| ==>
      RequestPath(Catalogue[i].url) == "/map/geojson/" + Catalogue[i].id
  {
    CatalogueUrls();
    forall i | 0 <= i < |Catalogue|
      ensures RequestPath(Catalogue[i].url) == "/map/geojson/" + Catalogue[i].id
    {
      var u := Catalogue[i].url;
      assert u == GeoJsonRoute + Catalogue[i].id;
      assert u[..5] == "/api/";
      assert u[4..] == "/map/geojson/" + Catalogue[i].id;
    }
  }

  /** What the loop leaves in its three objects. */
  datatype Loaded = Loaded(data: map<string, GeoJson>, visible: map<string, bool>, opacity: map<string, real>)

  /** The starting opacity of a layer: the outline is fainter. */
  function StartOpacity(layerId: string): real {
    if layerId == "india" then 0.4 else 0.8
  }

  /** The objects after loading the layers in order; `fetch` is the GET of a
      path, None when it throws. */
  function LoadAll(layers: seq<Layer>, fetch: string -> Option<GeoJson>): Loaded {
    if layers == [] then Loaded(map[], map[], map[])
    else
      var before := LoadAll(layers[..|layers| - 1], fetch);
      var l := layers[|layers| - 1];
      match fetch(RequestPath(l.url))
      case None => before
      case Some(d) => Loaded(before.data[l.id := d], before.visible[l.id := true],
                             before.opacity[l.id := StartOpacity(l.id)])
  }

  /** The load loop: for each layer, request its rewritten path; on success
      record its data, make it visible and give it its starting opacity; a
      request that throws skips the layer. */
  method LoadLayers(layers: seq<Layer>, fetch: string -> Option<GeoJson>) returns (r: Loaded)
    ensures r == LoadAll(layers, fetch)
  {
    var loaded: map<string, GeoJson> := map[];
    var vis: map<string, bool> := map[];
    var op: map<string, real> := map[];
    for i := 0 to |layers|
      invariant Loaded(loaded, vis, op) == LoadAll(layers[..i], fetch)
    {
      assert layers[..i + 1][..i] == layers[..i];
      var l := layers[i];
      var path := if |l.url| >= 5 && l.url[..5] == "/api/" then l.url[4..] else l.url;
      var data := fetch(path);
      if data.Some? {
        loaded := loaded[l.id := data.value];
        vis := vis[l.id := true];
        op := op[l.id := if l.id == "india" then 0.4 else 0.8];
      }
    }
    assert layers[..|layers|] == layers;
    r := Loaded(loaded, vis, op);
  }

  /** A layer was requested successfully. */
  predicate Fetched(l: Layer, fetch: string -> Option<GeoJson>) {
    fetch(RequestPath(l.url)).Some?
  }

  /** The three objects always list the same layers, every one visible and
      at its starting opacity. */
  lemma {:induction false} LoadedAlike(layers: seq<Layer>, fetch: string -> Option<GeoJson>)
    ensures var r := LoadAll(layers, fetch);
      && r.data.Keys == r.visible.Keys == r.opacity.Keys
      && (forall id :: id in r.visible ==> r.visible[id])
      && (forall id :: id in r.opacity ==> r.opacity[id] == StartOpacity(id))
  {
    if layers != [] {
      LoadedAlike(layers[..|layers| - 1], fetch);
    }
  }

  /** A layer id is loaded exactly when some layer with that id was
      requested successfully; a layer whose request throws is skipped. */
  lemma {:induction false} LoadedIff(layers: seq<Layer>, fetch: string -> Option<GeoJson>)
    ensures forall id :: id in LoadAll(layers, fetch).data <==>
      exists i :: 0 <= i < |layers| && layers[i].id == id && Fetched(layers[i], fetch)
  {
    if layers != [] {
      var init := layers[..|layers| - 1];
      var last := layers[|layers| - 1];
      LoadedIff(init, fetch);
      forall id
        ensures id in LoadAll(layers, fetch).data <==>
          exists i :: 0 <= i < |layers| && layers[i].id == id && Fetched(layers[i], fetch)
      {
        if id in LoadAll(layers, fetch).data {
          if id in LoadAll(init, fetch).data {
            var i :| 0 <= i < |init| && init[i].id == id && Fetched(init[i], fetch);
            assert layers[i] == init[i];
          } else {
            assert layers[|layers| - 1].id == id && Fetched(last, fetch);
          }
        } else {
          assert id !in LoadAll(init, fetch).data;
          forall i | 0 <= i < |layers| && layers[i].id == id
            ensures !Fetched(layers[i], fetch)
          {
            if i < |init| {
              assert layers[i] == init[i] && init[i].id == id;
            }
          }
        }
      }
    }
  }

  /** The data kept for a layer is what its request returned when no later
      layer with the same id was fetched: the last successful request wins. */
  lemma {:induction false} LoadedData(layers: seq<Layer>, fetch: string -> Option<GeoJson>, i: nat)
    requires i < |layers| && Fetched(layers[i], fetch)
    requires forall j :: i < j < |layers| && layers[j].id == layers[i].id ==> !Fetched(layers[j], fetch)
    ensures layers[i].id in LoadAll(layers, fetch).data
    ensures LoadAll(layers, fetch).data[layers[i].id] == fetch(RequestPath(layers[i].url)).value
  {
    if i < |layers| - 1 {
      var init := layers[..|layers| - 1];
      assert init[i] == layers[i];
      LoadedData(init, fetch, i);
    }
  }
}
