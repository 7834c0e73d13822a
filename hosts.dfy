/** The hosts page of hosts.go: each active host's settings are projected to
    the three fields the page shows, and the projected list is served as
    JSON. Fetching from the daemon and JSON encoding and decoding are
    parameters. */
module Hosts {
  import opened SiaTypes

  /** `modules.HostSettings`: what a host announces. Only the first three
      fields are shown on the hosts page; the others stand for the rest of
      the announcement. */
  datatype HostSettings = HostSettings(
    ipAddress: string,
    totalStorage: int,
    price: nat,
    minFilesize: nat,
    maxFilesize: nat,
    minDuration: nat,
    maxDuration: nat,
    windowSize: nat,
    collateral: nat,
    unlockHash: Hash)

  /** `hostDisplayInfo`: one row of the hosts table. */
  datatype HostDisplayInfo = HostDisplayInfo(ipAddress: string, totalStorage: int, price: nat)

  /** `NewHostDisplayInfo`: the address, total storage and price, unchanged. */
  function NewHostDisplayInfo(settings: HostSettings): (info: HostDisplayInfo)
    ensures info.ipAddress == settings.ipAddress
    ensures info.totalStorage == settings.totalStorage
    ensures info.price == settings.price
  {
    HostDisplayInfo(settings.ipAddress, settings.totalStorage, settings.price)
  }

  /** The projection keeps exactly the three shown fields: two hosts get the
      same row if and only if they agree on address, storage and price,
      whatever else their settings say. */
  lemma DisplayKeepsOnlyShownFields(a: HostSettings, b: HostSettings)
    ensures NewHostDisplayInfo(a) == NewHostDisplayInfo(b) <==>
              a.ipAddress == b.ipAddress && a.totalStorage == b.totalStorage && a.price == b.price
  {
  }

  /** The rows the handler serves, one per host, in the daemon's order. */
  function DisplayList(hosts: seq<HostSettings>): (rows: seq<HostDisplayInfo>)
    ensures |rows| == |hosts|
    ensures forall i :: 0 <= i < |hosts| ==> rows[i] == NewHostDisplayInfo(hosts[i])
  {
    if hosts == [] then [] else DisplayList(hosts[..|hosts| - 1]) + [NewHostDisplayInfo(hosts[|hosts| - 1])]
  }

  /** Every row comes from some host and every host's row is present: the
      rows are the hosts' projections, with nothing dropped or added. */
  lemma {:induction false} DisplayListCovers(hosts: seq<HostSettings>, row: HostDisplayInfo)
    ensures row in DisplayList(hosts) <==> exists h :: h in hosts && NewHostDisplayInfo(h) == row
  {
    var rows := DisplayList(hosts);
    if row in rows {
      var i :| 0 <= i < |rows| && rows[i] == row;
      assert hosts[i] in hosts;
    }
    if exists h :: h in hosts && NewHostDisplayInfo(h) == row {
      var h :| h in hosts && NewHostDisplayInfo(h) == row;
      var i :| 0 <= i < |hosts| && hosts[i] == h;
      assert rows[i] == row;
    }
  }

  /** The conversion loop of `hostsHandler`: a slice of `|hosts|` rows,
      filled in place by index. */
  method ConvertHosts(hosts: seq<HostSettings>) returns (displayHosts: array<HostDisplayInfo>)
    ensures fresh(displayHosts)
    ensures displayHosts[..] == DisplayList(hosts)
  {
    displayHosts := new HostDisplayInfo[|hosts|];
    for i := 0 to |hosts|
      invariant forall k :: 0 <= k < i ==> displayHosts[k] == NewHostDisplayInfo(hosts[k])
    {
      displayHosts[i] := NewHostDisplayInfo(hosts[i]);
    }
  }

  /** What the handler writes: the JSON of the rows, or an HTTP error. */
  datatype Reply = HostsJson(body: string) | HttpError(message: string, status: nat)

  const StatusInternalServerError: nat := 500

  /** `hostsHandler`. `fetched` is the daemon's reply to the active-hosts
      query, `decode` reads it as a host list, `encode` writes the rows. */
  method HostsHandler(fetched: Result<string>, decode: string -> Result<seq<HostSettings>>,
                      encode: seq<HostDisplayInfo> -> Result<string>)
    returns (reply: Reply)
    ensures reply.HttpError? ==> reply.status == StatusInternalServerError
    ensures reply.HttpError? <==>
              || fetched.Err?
              || decode(fetched.value).Err?
              || encode(DisplayList(decode(fetched.value).value)).Err?
    ensures reply.HostsJson? ==>
              reply.body == encode(DisplayList(decode(fetched.value).value)).value
  {
    if fetched.Err? {
      return HttpError(fetched.error.message, StatusInternalServerError);
    }
    var hl := decode(fetched.value);
    if hl.Err? {
      return HttpError(hl.error.message, StatusInternalServerError);
    }
    var displayHosts := ConvertHosts(hl.value);
    var hostsJson := encode(displayHosts[..]);
    if hostsJson.Err? {
      return HttpError(hostsJson.error.message, StatusInternalServerError);
    }
    reply := HostsJson(hostsJson.value);
  }
}
