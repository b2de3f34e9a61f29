/**
  The configuration of a container in liblxc, as the runtime fills it.
 */
module LxcConfig {

  // liblxc refuses items it does not know.
  class Config {
    const accepts: (string, string) -> bool
    var items: seq<(string, string)>

    constructor (accepts: (string, string) -> bool)
      ensures this.accepts == accepts && items == []
    {
      this.accepts, items := accepts, [];
    }

    method SetConfigItem(key: string, value: string) returns (ok: bool)
      modifies this`items
      ensures ok == accepts(key, value)
      ensures items == old(items) + if ok then [(key, value)] else []
    {
      ok := accepts(key, value);
      if ok { items := items + [(key, value)]; }
    }
  }
}
