/** The environment-derived settings the routers read, with their declared
    defaults and the three derived URLs (`jwt_issuer_url`, `jwks_url`,
    `intelligence_base_url`). */
module Config {
  import opened Text

  datatype Settings = Settings(
    keycloakUrl: string,
    keycloakRealm: string,
    jwtIssuer: string,
    n8nUrl: string,
    n8nApiKey: string,
    intelligenceUrl: string,
    intelligenceApiPrefix: string,
    ndviWorkerUrl: string,
    emailServiceUrl: string,
    odooUrl: string,
    ros2BridgeUrl: string,
    orionUrl: string,
    contextUrl: string)

  /** The values used when no environment variable overrides a field. */
  const Defaults: Settings := Settings(
    keycloakUrl := "https://auth.artotxiki.com/auth",
    keycloakRealm := "nekazari",
    jwtIssuer := "",
    n8nUrl := "http://n8n-service:5678",
    n8nApiKey := "",
    intelligenceUrl := "http://intelligence-api-service:8000",
    intelligenceApiPrefix := "/api/intelligence",
    ndviWorkerUrl := "http://ndvi-worker-service:8000",
    emailServiceUrl := "http://email-service:8000",
    odooUrl := "",
    ros2BridgeUrl := "http://ros2-fiware-bridge-service:8000",
    orionUrl := "http://orion-ld-service:1026",
    contextUrl := "https://nekazari.artotxiki.com/ngsi-ld-context.json")

  const RealmsSegment: string := "/realms/"
  const CertsSuffix: string := "/protocol/openid-connect/certs"

  /** The token issuer: an explicit `jwt_issuer` wins; otherwise it is derived
      from the Keycloak base URL and realm. */
  function JwtIssuerUrl(s: Settings): (r: string)
    ensures s.jwtIssuer != "" ==> r == s.jwtIssuer
    ensures s.jwtIssuer == "" ==> IsPrefix(s.keycloakUrl + RealmsSegment, r) && IsSuffix(s.keycloakRealm, r)
    ensures s.jwtIssuer == "" ==> |r| == |s.keycloakUrl| + |RealmsSegment| + |s.keycloakRealm|
  {
    if s.jwtIssuer != "" then s.jwtIssuer
    else
      PrefixOfConcat(s.keycloakUrl + RealmsSegment, s.keycloakRealm);
      SuffixOfConcat(s.keycloakUrl + RealmsSegment, s.keycloakRealm);
      s.keycloakUrl + RealmsSegment + s.keycloakRealm
  }

  /** The key-set URL: the issuer followed by the OpenID Connect certificate path. */
  function JwksUrl(s: Settings): (r: string)
    ensures IsPrefix(JwtIssuerUrl(s), r)
    ensures IsSuffix(CertsSuffix, r)
    ensures |r| == |JwtIssuerUrl(s)| + |CertsSuffix|
  {
    JwtIssuerUrl(s) + CertsSuffix
  }

  /** The intelligence service base: its URL followed by its API prefix. */
  function IntelligenceBaseUrl(s: Settings): (r: string)
    ensures IsPrefix(s.intelligenceUrl, r)
    ensures IsSuffix(s.intelligenceApiPrefix, r)
    ensures |r| == |s.intelligenceUrl| + |s.intelligenceApiPrefix|
  {
    s.intelligenceUrl + s.intelligenceApiPrefix
  }

  /** With an explicit issuer configured, the Keycloak base URL and realm no longer
      influence the issuer or the key-set URL. */
  lemma IssuerOverrideIgnoresKeycloak(s: Settings, url: string, realm: string)
    requires s.jwtIssuer != ""
    ensures JwtIssuerUrl(s.(keycloakUrl := url, keycloakRealm := realm)) == JwtIssuerUrl(s)
    ensures JwksUrl(s.(keycloakUrl := url, keycloakRealm := realm)) == JwksUrl(s)
  {
  }

  /** Stripping the certificate path from the key-set URL recovers the issuer. */
  lemma JwksUrlRecoversIssuer(s: Settings)
    ensures JwksUrl(s)[..|JwksUrl(s)| - |CertsSuffix|] == JwtIssuerUrl(s)
  {
  }

  /** Out of the box, Odoo is unconfigured and the issuer is derived from Keycloak. */
  lemma DefaultsDeriveIssuer()
    ensures Defaults.odooUrl == ""
    ensures JwtIssuerUrl(Defaults) == Defaults.keycloakUrl + "/realms/" + Defaults.keycloakRealm
    ensures JwksUrl(Defaults) == Defaults.keycloakUrl + "/realms/" + Defaults.keycloakRealm + CertsSuffix
  {
  }
}
