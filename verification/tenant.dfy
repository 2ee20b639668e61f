/** `KillBillApiDefinition.requiresTenantInformation`: whether an HTTP request
    must carry the tenant headers. The five path constants are parameters, with
    no assumption about how they relate to one another. */
module TenantHeaders {
  import opened Outcomes
  import opened Text

  /** `JaxrsResource.PREFIX`, `PLUGINS_PATH`, `SECURITY_PATH`, `TENANTS_PATH` and
      `NODES_INFO_PATH`. */
  datatype ApiPaths = ApiPaths(prefix: string, plugins: string, security: string, tenants: string, nodesInfo: string)

  predicate IsPermissionRequest(paths: ApiPaths, path: Option<string>)
  {
    StartsWith(path, paths.security)
  }

  predicate IsTenantCreationRequest(paths: ApiPaths, path: Option<string>, httpMethod: Option<string>)
  {
    EqualsConstant(paths.tenants, path) && MatchesIgnoreCase("POST", httpMethod)
  }

  predicate IsNodeInfoRequest(paths: ApiPaths, path: Option<string>)
  {
    EqualsConstant(paths.nodesInfo, path)
  }

  predicate IsOptionsRequest(httpMethod: Option<string>)
  {
    MatchesIgnoreCase("OPTIONS", httpMethod)
  }

  predicate IsKbApiRequest(paths: ApiPaths, path: Option<string>)
  {
    StartsWith(path, paths.prefix)
  }

  predicate IsPluginRequest(paths: ApiPaths, path: Option<string>)
  {
    StartsWith(path, paths.plugins)
  }

  /** Static resources: a GET outside both the API and the plugins. */
  predicate IsNotKbNorPluginResourceRequest(paths: ApiPaths, path: Option<string>, httpMethod: Option<string>)
  {
    !IsPluginRequest(paths, path) && !IsKbApiRequest(paths, path) && MatchesIgnoreCase("GET", httpMethod)
  }

  function RequiresTenantInformation(paths: ApiPaths, path: Option<string>, httpMethod: Option<string>): (r: bool)
    // CORS preflight never needs a tenant
    ensures IsOptionsRequest(httpMethod) ==> !r
    // creating a tenant, i.e. POST exactly on the tenants path, cannot need one
    ensures path == Some(paths.tenants) && MatchesIgnoreCase("POST", httpMethod) ==> !r
    // permissions, plugins and node info are cross-tenant, whatever the method
    ensures StartsWith(path, paths.security) || StartsWith(path, paths.plugins) || path == Some(paths.nodesInfo) ==> !r
    // static resources
    ensures MatchesIgnoreCase("GET", httpMethod) && !StartsWith(path, paths.prefix) && !StartsWith(path, paths.plugins) ==> !r
    // a missing path is exempt only for GET and OPTIONS
    ensures path.None? ==> (r <==> !MatchesIgnoreCase("GET", httpMethod) && !MatchesIgnoreCase("OPTIONS", httpMethod))
  {
    var shouldSkipTenantInfoForRequests :=
      IsTenantCreationRequest(paths, path, httpMethod)
      || IsPermissionRequest(paths, path)
      || IsNodeInfoRequest(paths, path)
      || IsOptionsRequest(httpMethod)
      || IsPluginRequest(paths, path)
      || IsNotKbNorPluginResourceRequest(paths, path, httpMethod);
    !shouldSkipTenantInfoForRequests
  }

  /** The exemptions in plain terms: a request needs the tenant headers exactly
      when it is not a preflight and, for a present path, it is outside the
      security and plugin trees, is not node info, is not a POST creating a tenant
      and is not a GET outside the API. */
  predicate NeedsTenant(paths: ApiPaths, path: Option<string>, httpMethod: Option<string>)
  {
    var get := MatchesIgnoreCase("GET", httpMethod);
    var post := MatchesIgnoreCase("POST", httpMethod);
    !MatchesIgnoreCase("OPTIONS", httpMethod)
    && match path
       case None => !get
       case Some(p) =>
         !(paths.security <= p) && !(paths.plugins <= p) && p != paths.nodesInfo
         && !(p == paths.tenants && post)
         && !(get && !(paths.prefix <= p))
  }

  lemma RequiresTenantMatchesPlainRule(paths: ApiPaths, path: Option<string>, httpMethod: Option<string>)
    ensures RequiresTenantInformation(paths, path, httpMethod) <==> NeedsTenant(paths, path, httpMethod)
  {
  }

  /** The tenant-creation exemption is narrow. On a tenants path inside the API
      and outside the cross-tenant trees, only POST is exempt: GET and PUT there,
      and POST on any longer path below it, need the tenant headers. */
  lemma TenantCreationExemptionIsNarrow(paths: ApiPaths, below: string)
    requires paths.prefix <= paths.tenants
    requires |below| > 0
    requires !(paths.security <= paths.tenants + below) && !(paths.plugins <= paths.tenants + below)
    requires paths.tenants != paths.nodesInfo && paths.tenants + below != paths.nodesInfo
    ensures !RequiresTenantInformation(paths, Some(paths.tenants), Some("POST"))
    ensures RequiresTenantInformation(paths, Some(paths.tenants), Some("GET"))
    ensures RequiresTenantInformation(paths, Some(paths.tenants), Some("PUT"))
    ensures RequiresTenantInformation(paths, Some(paths.tenants + below), Some("POST"))
  {
    var longer := paths.tenants + below;
    assert longer != paths.tenants by {
      assert |longer| > |paths.tenants|;
    }
    assert paths.prefix <= longer by {
      assert longer[..|paths.tenants|] == paths.tenants;
    }
  }

  /** The method is compared ignoring ASCII case. */
  lemma MethodCaseIgnored(paths: ApiPaths, path: Option<string>)
    ensures !RequiresTenantInformation(paths, path, Some("options"))
    ensures !RequiresTenantInformation(paths, path, Some("Options"))
    ensures path.None? ==> !RequiresTenantInformation(paths, path, Some("get"))
    ensures path.None? ==> RequiresTenantInformation(paths, path, Some("DELETE"))
  {
  }
}
