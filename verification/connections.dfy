/** The connection-plugin registry held by the shared data. */
module Connections {
  import opened Wrappers

  /** A connection plugin class, known here only by its name. */
  type ConnectionPlugin = string

  /** The `KeyError` a dict lookup raises for a missing key. */
  datatype LookupError = KeyError(key: string)

  /** `get_connection_type`: the plugin registered under `connection`, or a
      lookup error naming it. */
  function GetConnectionType(available: map<string, ConnectionPlugin>, connection: string)
    : (r: Result<ConnectionPlugin, LookupError>)
    ensures r.Success? <==> connection in available
    ensures r.Success? ==> r.value == available[connection]
    ensures r.Failure? ==> r.error == KeyError(connection)
  {
    if connection in available then Success(available[connection]) else Failure(KeyError(connection))
  }
}
