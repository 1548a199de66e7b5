/** The public view of a home that the host API returns, with upload URLs. */
module SafeHome {
  import opened Js
  import Models

  /** The environment variables the helper reads. */
  datatype Env = Env(nodeEnv: Option<string>, backendUrl: Option<string>, port: Option<string>)

  /** What the helper reads of the request: `req.protocol` and `req.get("host")`. */
  datatype Request = Request(protocol: string, host: Option<string>)

  predicate IsProduction(env: Env) {
    env.nodeEnv == Some("production")
  }

  /** The prefix put before "/uploads/". The third branch tests the negation of
      what the first one tested, so it is dead code. */
  function BaseUrl(env: Env, req: Request): (r: string)
    ensures !IsProduction(env) ==> r == ""
    ensures IsProduction(env) ==> r == req.protocol + "://" + Render(req.host)
  {
    var isDevelopment := !IsProduction(env);
    if isDevelopment then ""
    else if IsProduction(env) then req.protocol + "://" + Render(req.host)
    else OrElse(env.backendUrl, "http://localhost:" + OrElse(env.port, "3000"))
  }

  /** BACKEND_URL and PORT never influence the URLs. */
  lemma BaseUrlIgnoresBackendUrl(env: Env, req: Request, backendUrl: Option<string>, port: Option<string>)
    ensures BaseUrl(env.(backendUrl := backendUrl, port := port), req) == BaseUrl(env, req)
  {
  }

  /** `name ? `${baseUrl}/uploads/${name}` : null`. */
  function UploadUrl(baseUrl: string, name: Option<string>): (v: Value)
    ensures v == Null <==> !Present(name)
    ensures Present(name) ==> v == Str(baseUrl + "/uploads/" + name.value)
  {
    if Present(name) then Str(baseUrl + "/uploads/" + name.value) else Null
  }

  const SafeHomeKeys: set<string> :=
    {"_id", "houseName", "price", "location", "rating", "description", "photos", "houseRulePdf"}

  /** `buildSafeHome(home, req)`. */
  function BuildSafeHome(id: Models.Id, home: Models.Home, env: Env, req: Request): (r: map<string, Value>)
    ensures r.Keys == SafeHomeKeys
    ensures r["_id"] == Str(id)
    ensures r["houseName"] == home.houseName && r["price"] == home.price
    ensures r["location"] == home.location && r["rating"] == home.rating
    ensures r["description"] == home.description
    ensures r["photos"] == UploadUrl(BaseUrl(env, req), home.photos)
    ensures r["houseRulePdf"] == UploadUrl(BaseUrl(env, req), home.houseRulePdf)
  {
    var baseUrl := BaseUrl(env, req);
    map["_id" := Str(id), "houseName" := home.houseName, "price" := home.price,
        "location" := home.location, "rating" := home.rating,
        "description" := home.description,
        "photos" := UploadUrl(baseUrl, home.photos),
        "houseRulePdf" := UploadUrl(baseUrl, home.houseRulePdf)]
  }

  /** Outside production both file fields are site-relative "/uploads/<name>" URLs,
      or null when the home has no such file. */
  lemma DevelopmentUrls(id: Models.Id, home: Models.Home, env: Env, req: Request)
    requires !IsProduction(env)
    ensures var r := BuildSafeHome(id, home, env, req);
      && (r["photos"] == Null <==> !Present(home.photos))
      && (Present(home.photos) ==> r["photos"] == Str("/uploads/" + home.photos.value))
      && (r["houseRulePdf"] == Null <==> !Present(home.houseRulePdf))
      && (Present(home.houseRulePdf) ==> r["houseRulePdf"] == Str("/uploads/" + home.houseRulePdf.value))
  {
    assert BaseUrl(env, req) == "";
    assert forall s: string :: "" + s == s;
  }

  /** In production they are absolute URLs on the requesting host. */
  lemma ProductionUrls(id: Models.Id, home: Models.Home, env: Env, req: Request)
    requires IsProduction(env) && Present(home.photos)
    ensures BuildSafeHome(id, home, env, req)["photos"]
      == Str(req.protocol + "://" + Render(req.host) + "/uploads/" + home.photos.value)
  {
  }
}
