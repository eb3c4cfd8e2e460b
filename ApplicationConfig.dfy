/**
 * Cross-origin configuration: one configuration object populated through its
 * setters and registered for every path, and the CORS filter built on it. How
 * the filter enforces the configuration is library code and not modelled.
 */
module ApplicationConfig {
  import opened Wrappers

  /** The application's own properties: expected token audience and the client's origin. */
  datatype ApplicationProperties = ApplicationProperties(audience: string, clientOriginUrl: string)

  const Authorization: string := "Authorization"
  const ContentType: string := "Content-Type"
  const Get: string := "GET"
  const OneDaySeconds: int := 86400
  const AllPaths: string := "/**"

  /** What a configuration holds; an unset list or max-age is None, as a null field is. */
  datatype CorsPolicy = CorsPolicy(
    allowedOrigins: Option<seq<string>>,
    allowedHeaders: Option<seq<string>>,
    allowedMethods: Option<seq<string>>,
    maxAge: Option<int>)

  /** The policy the application asks for, given its properties. */
  function ConfiguredPolicy(props: ApplicationProperties): CorsPolicy
  {
    CorsPolicy(Some([props.clientOriginUrl]), Some([Authorization, ContentType]), Some([Get]), Some(OneDaySeconds))
  }

  /** The configured policy: one origin, the client's; two headers; GET only; a one-day preflight max-age. */
  lemma ConfiguredPolicyValues(props: ApplicationProperties, origin: string, header: string, httpMethod: string)
    ensures ConfiguredPolicy(props).allowedOrigins.Some? && (origin in ConfiguredPolicy(props).allowedOrigins.value <==> origin == props.clientOriginUrl)
    ensures ConfiguredPolicy(props).allowedHeaders.Some? && (header in ConfiguredPolicy(props).allowedHeaders.value <==> header == "Authorization" || header == "Content-Type")
    ensures ConfiguredPolicy(props).allowedMethods.Some? && (httpMethod in ConfiguredPolicy(props).allowedMethods.value <==> httpMethod == "GET")
    ensures ConfiguredPolicy(props).maxAge == Some(86400)
  {
  }

  /** A CORS configuration object, populated field by field. */
  class CorsConfiguration {
    var allowedOrigins: Option<seq<string>>
    var allowedHeaders: Option<seq<string>>
    var allowedMethods: Option<seq<string>>
    var maxAge: Option<int>

    constructor ()
      ensures Policy() == CorsPolicy(None, None, None, None)
    {
      allowedOrigins, allowedHeaders, allowedMethods, maxAge := None, None, None, None;
    }

    function Policy(): CorsPolicy
      reads this
    {
      CorsPolicy(allowedOrigins, allowedHeaders, allowedMethods, maxAge)
    }

    method SetAllowedOrigins(origins: seq<string>)
      modifies this`allowedOrigins
      ensures Policy() == old(Policy()).(allowedOrigins := Some(origins))
    {
      allowedOrigins := Some(origins);
    }

    method SetAllowedHeaders(headers: seq<string>)
      modifies this`allowedHeaders
      ensures Policy() == old(Policy()).(allowedHeaders := Some(headers))
    {
      allowedHeaders := Some(headers);
    }

    method SetAllowedMethods(methods: seq<string>)
      modifies this`allowedMethods
      ensures Policy() == old(Policy()).(allowedMethods := Some(methods))
    {
      allowedMethods := Some(methods);
    }

    /** A duration is kept as its whole number of seconds. */
    method SetMaxAge(seconds: int)
      modifies this`maxAge
      ensures Policy() == old(Policy()).(maxAge := Some(seconds))
    {
      maxAge := Some(seconds);
    }
  }

  /** Configurations registered by path pattern. */
  class UrlBasedCorsConfigurationSource {
    var corsConfigurations: map<string, CorsConfiguration>

    constructor ()
      ensures corsConfigurations == map[]
    {
      corsConfigurations := map[];
    }

    method RegisterCorsConfiguration(pattern: string, config: CorsConfiguration)
      modifies this
      ensures corsConfigurations == old(corsConfigurations)[pattern := config]
    {
      corsConfigurations := corsConfigurations[pattern := config];
    }
  }

  /** The servlet filter that applies a configuration source. */
  class CorsFilter {
    const configSource: UrlBasedCorsConfigurationSource

    constructor (configSource: UrlBasedCorsConfigurationSource)
      ensures this.configSource == configSource
    {
      this.configSource := configSource;
    }
  }

  class ApplicationConfig {
    const applicationProps: ApplicationProperties

    constructor (applicationProps: ApplicationProperties)
      ensures this.applicationProps == applicationProps
    {
      this.applicationProps := applicationProps;
    }

    /** Builds a fresh configuration step by step and registers it, alone, for every path. */
    method CorsConfigurationSource() returns (source: UrlBasedCorsConfigurationSource)
      ensures fresh(source)
      ensures source.corsConfigurations.Keys == {AllPaths}
      ensures fresh(source.corsConfigurations[AllPaths])
      ensures source.corsConfigurations[AllPaths].Policy() == ConfiguredPolicy(applicationProps)
    {
      source := new UrlBasedCorsConfigurationSource();
      var config := new CorsConfiguration();
      var origins := [applicationProps.clientOriginUrl];
      var headers := [Authorization, ContentType];
      var methods := [Get];
      var maxAge := OneDaySeconds;

      config.SetAllowedOrigins(origins);
      config.SetAllowedHeaders(headers);
      config.SetAllowedMethods(methods);
      config.SetMaxAge(maxAge);

      source.RegisterCorsConfiguration(AllPaths, config);
    }

    /** The CORS filter is built on the configuration source above, so it applies the same policy to every path. */
    method CorsFilterBean() returns (filter: CorsFilter)
      ensures fresh(filter)
      ensures filter.configSource.corsConfigurations.Keys == {AllPaths}
      ensures filter.configSource.corsConfigurations[AllPaths].Policy() == ConfiguredPolicy(applicationProps)
    {
      var configSource := CorsConfigurationSource();
      filter := new CorsFilter(configSource);
    }
  }
}
