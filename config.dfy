/** The already-validated configuration records the relay and the agent consume. */
module Config {
  import opened Numerals

  /** One tunnel of the agent's configuration. */
  datatype Tunnel = Tunnel(name: string, protocol: string, localAddr: string, remotePort: Int64)

  /** Relay settings; `portRange` is free text such as "10000-20000", possibly empty. */
  datatype ServerConfig = ServerConfig(controlPort: Int64, token: string, portRange: string)

  /** Agent settings. */
  datatype ClientConfig = ClientConfig(serverAddr: string, token: string, tunnels: seq<Tunnel>)
}
