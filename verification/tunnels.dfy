/**
 * `get_ngrok_url(port)`: the public URL of the ngrok tunnel that forwards a
 * local port, chosen from the tunnel list of ngrok's local API.  The HTTP
 * fetch is a parameter; any exception while reading the reply ends the
 * search with `None`.
 */
module Tunnels {
  import opened Wrappers
  import opened Text
  import opened Numerals

  /** One entry of the `tunnels` list; a field that is absent (or not a string) is `None`. */
  datatype Tunnel = Tunnel(addr: Option<string>, publicUrl: Option<string>)

  /** What the ngrok API call produced. */
  datatype TunnelReply =
    | Unreachable                    // requests.get raised, or the body is not JSON
    | Listing(tunnels: seq<Tunnel>)  // the 'tunnels' list; a missing key reads as []

  /** `tunnel['config']['addr'].endswith(f':{port}')`, when the address is there. */
  predicate Forwards(t: Tunnel, port: int)
    requires t.addr.Some?
  {
    EndsWith(t.addr.value, ":" + ShowInt(port))
  }

  /** A tunnel the loop passes over without raising: an address that does not match. */
  predicate PassedOver(t: Tunnel, port: int) {
    t.addr.Some? && !Forwards(t, port)
  }

  /**
   * The loop of `get_ngrok_url` over the tunnel list: the first tunnel whose
   * address ends in ":port" yields its `public_url`; a tunnel without an
   * address, or a matching tunnel without a public URL, raises and gives
   * `None`; running off the end gives `None`.
   */
  function SelectTunnel(ts: seq<Tunnel>, port: int): (url: Option<string>)
    ensures url.Some? <==>
              exists i :: 0 <= i < |ts| && ts[i].addr.Some? && Forwards(ts[i], port) && ts[i].publicUrl.Some?
                          && forall j :: 0 <= j < i ==> PassedOver(ts[j], port)
    ensures url.Some? ==>
              exists i :: 0 <= i < |ts| && ts[i].addr.Some? && Forwards(ts[i], port) && ts[i].publicUrl == url
                          && forall j :: 0 <= j < i ==> PassedOver(ts[j], port)
  {
    if |ts| == 0 then None
    else if ts[0].addr.None? then None
    else if Forwards(ts[0], port) then ts[0].publicUrl
    else
      var rest := SelectTunnel(ts[1..], port);
      assert forall i :: 1 <= i < |ts| ==> ts[i] == ts[1..][i - 1];
      if rest.Some? then
        var i :| 0 <= i < |ts[1..]| && ts[1..][i].addr.Some? && Forwards(ts[1..][i], port)
                 && ts[1..][i].publicUrl == rest
                 && forall j :: 0 <= j < i ==> PassedOver(ts[1..][j], port);
        assert forall j :: 0 <= j < i + 1 ==> PassedOver(ts[j], port) by {
          forall j | 0 <= j < i + 1
            ensures PassedOver(ts[j], port)
          {
            if j > 0 {
              assert ts[j] == ts[1..][j - 1];
            }
          }
        }
        rest
      else
        rest
  }

  /** `get_ngrok_url(port)`. */
  function GetNgrokUrl(reply: TunnelReply, port: int): (url: Option<string>)
    ensures reply.Unreachable? ==> url.None?
    ensures reply.Listing? ==> url == SelectTunnel(reply.tunnels, port)
  {
    match reply
    case Unreachable => None
    case Listing(ts) => SelectTunnel(ts, port)
  }

  /** Tunnels for other ports in front of the match do not change the choice. */
  lemma {:induction false} SkipsOtherPorts(others: seq<Tunnel>, t: Tunnel, rest: seq<Tunnel>, port: int)
    requires forall j :: 0 <= j < |others| ==> PassedOver(others[j], port)
    requires t.addr.Some? && Forwards(t, port)
    ensures SelectTunnel(others + [t] + rest, port) == t.publicUrl
  {
    if |others| == 0 {
      assert others + [t] + rest == [t] + rest;
    } else {
      assert (others + [t] + rest)[1..] == others[1..] + [t] + rest;
      SkipsOtherPorts(others[1..], t, rest, port);
    }
  }
}
