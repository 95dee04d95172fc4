/** Owner keys of exposed sandbox ports: printed when a port is exposed, parsed back when
    the listeners of a sandbox are looked up for teardown. */
module PortKeys {
  import opened Wrappers
  import opened Text

  const PREFIX: string := "sandbox:"

  /** `sandbox_port_key`. */
  function Key(id: string, port: nat, protocol: string): string {
    PREFIX + id + ":" + Decimal(port) + "/" + protocol
  }

  /** `sandbox_port_key_parts`. */
  function Parts(key: string): Option<(string, nat)> {
    match StripPrefix(key, PREFIX)
    case None => None
    case Some(rest) =>
      match RSplitOnce(rest, ':')
      case None => None
      case Some((id, binding)) =>
        match SplitOnce(binding, "/")
        case None => None
        case Some((port, protocol)) =>
          match ParseU16(port)
          case None => None
          case Some(n) => if id != [] && protocol != [] then Some((id, n)) else None
  }

  /** `sandbox_port_key_owner`. */
  function Owner(key: string): Option<string> {
    match Parts(key)
    case None => None
    case Some((id, _)) => Some(id)
  }

  lemma PartsOfKey(id: string, port: nat, protocol: string)
    requires port <= U16_MAX && ':' !in protocol
    ensures Parts(Key(id, port, protocol)) == if id != [] && protocol != [] then Some((id, port)) else None
  {
    var digits := Decimal(port);
    var binding := digits + "/" + protocol;
    var rest := id + ":" + binding;
    assert Key(id, port, protocol) == PREFIX + rest;
    assert StripPrefix(PREFIX + rest, PREFIX) == Some(rest);
    DigitsExclude(digits, ':');
    RSplitUnique(id, ':', binding);
    DigitsExclude(digits, '/');
    ClearChar(digits, '/');
    SplitOnceRecovers(digits, "/", protocol);
    ParsePrinted(port);
  }

  /** A key parses back to its sandbox and port exactly when the id is non-empty and the
      protocol is non-empty and free of colons. The id may hold colons and slashes. */
  lemma RoundTripIff(id: string, port: nat, protocol: string)
    requires port <= U16_MAX
    ensures Parts(Key(id, port, protocol)) == Some((id, port)) <==> id != [] && protocol != [] && ':' !in protocol
  {
    if ':' !in protocol {
      PartsOfKey(id, port, protocol);
    } else {
      var key := Key(id, port, protocol);
      var rest := id + ":" + Decimal(port) + "/" + protocol;
      assert key == PREFIX + rest;
      var (h, t) := RSplitOnce(rest, ':').value;
      var i :| 0 <= i < |protocol| && protocol[i] == ':';
      var at := |id| + 1 + |Decimal(port)| + 1 + i;
      assert rest[at] == ':';
      LastAt(rest, ':', h, t, at);
      assert |h| > |id|;
    }
  }

  /** Two exposures never share a key. */
  lemma KeysAreInjective(id: string, port: nat, protocol: string, id': string, port': nat, protocol': string)
    requires port <= U16_MAX && port' <= U16_MAX
    requires ':' !in protocol && ':' !in protocol'
    requires Key(id, port, protocol) == Key(id', port', protocol')
    ensures id == id' && port == port' && protocol == protocol'
  {
    var a, b := Decimal(port) + "/" + protocol, Decimal(port') + "/" + protocol';
    DigitsExclude(Decimal(port), ':');
    DigitsExclude(Decimal(port'), ':');
    assert Key(id, port, protocol) == PREFIX + (id + ":" + a);
    assert Key(id', port', protocol') == PREFIX + (id' + ":" + b);
    assert id + ":" + a == Key(id, port, protocol)[|PREFIX|..] == id' + ":" + b;
    RSplitUnique(id, ':', a);
    RSplitUnique(id', ':', b);
    DigitsExclude(Decimal(port), '/');
    DigitsExclude(Decimal(port'), '/');
    ClearChar(Decimal(port), '/');
    ClearChar(Decimal(port'), '/');
    SplitOnceRecovers(Decimal(port), "/", protocol);
    SplitOnceRecovers(Decimal(port'), "/", protocol');
    assert Value(Decimal(port)) == Value(Decimal(port'));
  }
}
