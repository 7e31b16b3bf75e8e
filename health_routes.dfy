/**
 * The health and product-list endpoints without HTTP: the overall status
 * derived from the per-provider health map, and the product list built from
 * the product table.
 */
module HealthRoutes {
  import opened LlmClient
  import opened Products
  import opened Fallback
  import opened Wrappers

  /** "healthy" iff some provider reports true; an empty map is "degraded". */
  function OverallStatus(providers: map<string, bool>): (status: string)
    ensures status == "healthy" <==> exists name :: name in providers && providers[name]
    ensures status == "healthy" || status == "degraded"
  {
    if exists name :: name in providers && providers[name] then "healthy" else "degraded"
  }

  datatype HealthResponse = HealthResponse(status: string, version: string, providers: map<string, bool>, timestamp: Time)

  /** The health body: the chain's map passed through, with the derived status. */
  function HealthCheck(version: string, providers: map<string, bool>, now: Time): (r: HealthResponse)
    ensures r.providers == providers && r.version == version && r.timestamp == now
    ensures r.status == "healthy" <==> exists name :: name in providers && providers[name]
    ensures providers == map[] ==> r.status == "degraded"
  {
    HealthResponse(OverallStatus(providers), version, providers, now)
  }

  /** A true entry in the health map comes from a probe that answered and a provider whose own check succeeded. */
  lemma {:induction false} HealthMapTrueEntries(ps: seq<Client>, probes: seq<Probe>, name: string)
    requires |probes| == |ps|
    requires name in HealthMap(ps, probes) && HealthMap(ps, probes)[name]
    ensures exists j :: 0 <= j < |ps| && ps[j].Name().Value() == name && probes[j] == Answered && ps[j].HealthCheck()
  {
    var n := |ps|;
    var front, frontProbes := ps[..n - 1], probes[..n - 1];
    var last := ps[n - 1];
    if probes[n - 1] != Crashed && last.Name().Value() == name {
      assert HealthMap(ps, probes)[name] == (probes[n - 1] == Answered && last.HealthCheck());
    } else {
      assert HealthMap(ps, probes)[name] == HealthMap(front, frontProbes)[name];
      HealthMapTrueEntries(front, frontProbes, name);
      var j :| 0 <= j < n - 1 && front[j].Name().Value() == name && frontProbes[j] == Answered && front[j].HealthCheck();
      assert ps[j] == front[j] && probes[j] == frontProbes[j];
    }
  }

  /**
   * The service is "healthy" only if some provider answered its probe with
   * success, and is "healthy" whenever a provider answered with success and
   * no later probe of the same name overwrote it.
   */
  lemma StatusFromProbes(ps: seq<Client>, probes: seq<Probe>)
    requires |probes| == |ps|
    ensures OverallStatus(HealthMap(ps, probes)) == "healthy" ==>
      exists j :: 0 <= j < |ps| && probes[j] == Answered && ps[j].HealthCheck()
    ensures (exists j :: 0 <= j < |ps| && probes[j] == Answered && ps[j].HealthCheck()
                && forall l :: j < l < |ps| && ps[l].Name() == ps[j].Name() ==> probes[l] == Crashed)
      ==> OverallStatus(HealthMap(ps, probes)) == "healthy"
  {
    var m := HealthMap(ps, probes);
    if OverallStatus(m) == "healthy" {
      var name :| name in m && m[name];
      HealthMapTrueEntries(ps, probes, name);
    }
    if exists j :: 0 <= j < |ps| && probes[j] == Answered && ps[j].HealthCheck()
                && forall l :: j < l < |ps| && ps[l].Name() == ps[j].Name() ==> probes[l] == Crashed {
      var j :| 0 <= j < |ps| && probes[j] == Answered && ps[j].HealthCheck()
                && forall l :: j < l < |ps| && ps[l].Name() == ps[j].Name() ==> probes[l] == Crashed;
      HealthMapLastWins(ps, probes, j);
    }
  }

  /** One entry of the product list. */
  datatype ProductInfo = ProductInfo(id: string, name: string, description: string, version: string)

  /** `get_products`: one entry per product, in table order, with the product's value as id. */
  function GetProducts(catalog: ProductType -> ProductConfig): (r: seq<ProductInfo>)
    ensures |r| == |AllProducts|
    ensures forall i :: 0 <= i < |r| ==>
      && r[i].id == AllProducts[i].Value()
      && r[i].name == catalog(AllProducts[i]).name
      && r[i].description == catalog(AllProducts[i]).description
      && r[i].version == catalog(AllProducts[i]).version
  {
    seq(|AllProducts|, i requires 0 <= i < |AllProducts| =>
      var c := catalog(AllProducts[i]);
      ProductInfo(AllProducts[i].Value(), c.name, c.description, c.version))
  }

  /** Every product is listed exactly once, and ids are distinct. */
  lemma ProductListComplete(catalog: ProductType -> ProductConfig, p: ProductType)
    ensures exists i :: 0 <= i < |GetProducts(catalog)| && GetProducts(catalog)[i].id == p.Value()
    ensures forall i, j :: 0 <= i < j < |GetProducts(catalog)| ==> GetProducts(catalog)[i].id != GetProducts(catalog)[j].id
  {
    var r := GetProducts(catalog);
    var i := match p
      case Chatbot => 0
      case WritingHelper => 1
      case CodeReviewer => 2
      case SupportBot => 3
      case ContentSummarizer => 4;
    assert r[i].id == p.Value();
  }
}
