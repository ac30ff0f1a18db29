/**
 * Server configuration and its defaulting. applyDefaults fills every unset
 * field of a loaded configuration in place; the value of the DATABASE_URL
 * environment variable is the parameter `databaseUrl` ("" when unset).
 */
module Configuration {
  datatype LoggingConfig = LoggingConfig(level: string, format: string)
  datatype ServerConfig = ServerConfig(environment: string)
  datatype DatabaseConfig = DatabaseConfig(url: string, minConnections: int, maxConnections: int)
  datatype GrpcConfig = GrpcConfig(enableReflection: bool, port: int)
  datatype GatewayConfig = GatewayConfig(enableCors: bool, port: int)

  /** The value of a whole configuration. */
  datatype Settings = Settings(
    logging: LoggingConfig,
    server: ServerConfig,
    database: DatabaseConfig,
    grpc: GrpcConfig,
    gateway: GatewayConfig)

  const DefaultEnvironment := "development"
  const DefaultGrpcPort := 9090
  const DefaultGatewayPort := 8080
  const DefaultMaxConnections := 100
  const DefaultMinConnections := 20
  const DefaultLogLevel := "info"
  const DefaultLogFormat := "text"

  /** The configuration of an empty file: every field at Go's zero value. */
  const Zero := Settings(LoggingConfig("", ""), ServerConfig(""), DatabaseConfig("", 0, 0),
                         GrpcConfig(false, 0), GatewayConfig(false, 0))

  function OrString(value: string, default: string): string {
    if value == "" then default else value
  }

  function OrInt(value: int, default: int): int {
    if value == 0 then default else value
  }

  function ServerDefaulted(c: ServerConfig): ServerConfig {
    ServerConfig(OrString(c.environment, DefaultEnvironment))
  }

  function GrpcDefaulted(c: GrpcConfig): GrpcConfig {
    GrpcConfig(true, OrInt(c.port, DefaultGrpcPort))
  }

  function GatewayDefaulted(c: GatewayConfig): GatewayConfig {
    GatewayConfig(true, OrInt(c.port, DefaultGatewayPort))
  }

  function DatabaseDefaulted(c: DatabaseConfig, databaseUrl: string): DatabaseConfig {
    DatabaseConfig(OrString(databaseUrl, c.url),
                   OrInt(c.minConnections, DefaultMinConnections),
                   OrInt(c.maxConnections, DefaultMaxConnections))
  }

  function LoggingDefaulted(c: LoggingConfig): LoggingConfig {
    LoggingConfig(OrString(c.level, DefaultLogLevel), OrString(c.format, DefaultLogFormat))
  }

  /** The configuration applyDefaults leaves behind. */
  function Defaulted(s: Settings, databaseUrl: string): (r: Settings)
    ensures r.grpc.port == if s.grpc.port == 0 then DefaultGrpcPort else s.grpc.port
    ensures r.gateway.port == if s.gateway.port == 0 then DefaultGatewayPort else s.gateway.port
    ensures r.grpc.enableReflection && r.gateway.enableCors
    ensures r.server.environment == if s.server.environment == "" then DefaultEnvironment else s.server.environment
    ensures r.logging.level == if s.logging.level == "" then DefaultLogLevel else s.logging.level
    ensures r.logging.format == if s.logging.format == "" then DefaultLogFormat else s.logging.format
    ensures r.database.url == if databaseUrl != "" then databaseUrl else s.database.url
    ensures r.database.maxConnections ==
      if s.database.maxConnections == 0 then DefaultMaxConnections else s.database.maxConnections
    ensures r.database.minConnections ==
      if s.database.minConnections == 0 then DefaultMinConnections else s.database.minConnections
  {
    Settings(LoggingDefaulted(s.logging), ServerDefaulted(s.server), DatabaseDefaulted(s.database, databaseUrl),
             GrpcDefaulted(s.grpc), GatewayDefaulted(s.gateway))
  }

  /** A loaded configuration, updated in place by ApplyDefaults. */
  class Config {
    var logging: LoggingConfig
    var server: ServerConfig
    var database: DatabaseConfig
    var grpc: GrpcConfig
    var gateway: GatewayConfig

    function Value(): Settings
      reads this
    {
      Settings(logging, server, database, grpc, gateway)
    }

    constructor (s: Settings)
      ensures Value() == s
    {
      logging := s.logging;
      server := s.server;
      database := s.database;
      grpc := s.grpc;
      gateway := s.gateway;
    }

    /** applyDefaults, one section of the configuration after another. */
    method ApplyDefaults(databaseUrl: string)
      modifies this
      ensures Value() == Defaulted(old(Value()), databaseUrl)
    {
      DefaultServer();
      DefaultGrpc();
      DefaultGateway();
      DefaultDatabase(databaseUrl);
      DefaultLogging();
    }

    method DefaultServer()
      modifies this
      ensures server == ServerDefaulted(old(server))
      ensures logging == old(logging) && database == old(database) && grpc == old(grpc) && gateway == old(gateway)
    {
      if server.environment == "" {
        server := server.(environment := DefaultEnvironment);
      }
    }

    method DefaultGrpc()
      modifies this
      ensures grpc == GrpcDefaulted(old(grpc))
      ensures logging == old(logging) && server == old(server) && database == old(database) && gateway == old(gateway)
    {
      if grpc.port == 0 {
        grpc := grpc.(port := DefaultGrpcPort);
      }
      if !grpc.enableReflection {
        grpc := grpc.(enableReflection := true);
      }
    }

    method DefaultGateway()
      modifies this
      ensures gateway == GatewayDefaulted(old(gateway))
      ensures logging == old(logging) && server == old(server) && database == old(database) && grpc == old(grpc)
    {
      if gateway.port == 0 {
        gateway := gateway.(port := DefaultGatewayPort);
      }
      if !gateway.enableCors {
        gateway := gateway.(enableCors := true);
      }
    }

    /** `databaseUrl` is the value of the DATABASE_URL environment variable. */
    method DefaultDatabase(databaseUrl: string)
      modifies this
      ensures database == DatabaseDefaulted(old(database), databaseUrl)
      ensures logging == old(logging) && server == old(server) && grpc == old(grpc) && gateway == old(gateway)
    {
      if databaseUrl != "" {
        database := database.(url := databaseUrl);
      }
      if database.maxConnections == 0 {
        database := database.(maxConnections := DefaultMaxConnections);
      }
      if database.minConnections == 0 {
        database := database.(minConnections := DefaultMinConnections);
      }
    }

    method DefaultLogging()
      modifies this
      ensures logging == LoggingDefaulted(old(logging))
      ensures server == old(server) && database == old(database) && grpc == old(grpc) && gateway == old(gateway)
    {
      if logging.level == "" {
        logging := logging.(level := DefaultLogLevel);
      }
      if logging.format == "" {
        logging := logging.(format := DefaultLogFormat);
      }
    }
  }

  /** With the same environment, defaulting a defaulted configuration changes nothing. */
  lemma DefaultingIsIdempotent(s: Settings, databaseUrl: string)
    ensures Defaulted(Defaulted(s, databaseUrl), databaseUrl) == Defaulted(s, databaseUrl)
  {
  }

  /** A configuration every field of which is already set is a fixed point, unless the environment overrides the URL. */
  lemma CompleteConfigIsKept(s: Settings, databaseUrl: string)
    requires s.server.environment != "" && s.logging.level != "" && s.logging.format != ""
    requires s.grpc.port != 0 && s.gateway.port != 0 && s.grpc.enableReflection && s.gateway.enableCors
    requires s.database.minConnections != 0 && s.database.maxConnections != 0
    requires databaseUrl == "" || databaseUrl == s.database.url
    ensures Defaulted(s, databaseUrl) == s
  {
  }

  /** The configuration used when no file exists. */
  lemma DefaultsOfEmptyConfig(databaseUrl: string)
    ensures Defaulted(Zero, databaseUrl) ==
      Settings(LoggingConfig("info", "text"), ServerConfig("development"),
               DatabaseConfig(databaseUrl, 20, 100), GrpcConfig(true, 9090), GatewayConfig(true, 8080))
  {
  }
}
