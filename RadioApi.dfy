/**
 * The REST client of the radio: a mutable base URL and, for every remote
 * operation, the HTTP method, the path and the body of the request it issues.
 */
module RadioApi {
  import opened Wrappers

  /** A station as it travels over the wire; `_id` is absent until the server assigns one. */
  datatype StationData = StationData(id: Option<string>, name: string, url: string)

  datatype HttpMethod = Get | Post | Put | Delete

  /** What the service hands back to its subscriber. */
  datatype Reply =
    | StationList   // the parsed list of stations
    | OneStation    // one parsed station
    | RawObject     // the parsed body, whatever it is
    | Discarded     // the body is mapped away to `void`

  datatype Request = Request(verb: HttpMethod, path: string, body: Option<StationData>, reply: Reply)

  /** The remote operations, with the arguments that end up in the request. */
  datatype Endpoint =
    | ListStations
    | FetchStation(id: string)
    | UpdateStation(id: string, station: StationData)
    | FetchStatus
    | CreateStation(station: StationData)
    | PlayStation(id: string)
    | StopPlayback
    | DeleteStation(id: string)

  const DefaultUrl: string := "http://localhost:3000"

  /**
   * The server's routing table: which operation a request reaches when the
   * server lives at `base`. It is defined independently of the client and is
   * what the client's requests are checked against.
   */
  function Route(base: string, r: Request): Option<Endpoint>
  {
    if !(base <= r.path) then None
    else
      var p := r.path[|base|..];
      match r.verb
      case Get =>
        if r.body.Some? then None
        else if p == "/stations" then Some(ListStations)
        else if p == "/status" then Some(FetchStatus)
        else if p == "/stop" then Some(StopPlayback)
        else if "/stations/" <= p then Some(FetchStation(p[10..]))
        else if "/play/" <= p then Some(PlayStation(p[6..]))
        else None
      case Post =>
        if p == "/stations" && r.body.Some? then Some(CreateStation(r.body.value)) else None
      case Put =>
        if "/stations/" <= p && r.body.Some? then Some(UpdateStation(p[10..], r.body.value)) else None
      case Delete =>
        if "/stations/" <= p && r.body.None? then Some(DeleteStation(p[10..])) else None
  }

  lemma Joined(base: string, p: string)
    ensures base <= base + p && (base + p)[|base|..] == p
  {
  }

  lemma StationPath(base: string, id: string)
    ensures var p := (base + ("/stations/" + id))[|base|..];
      p != "/stations" && p != "/status" && p != "/stop" && "/stations/" <= p && p[10..] == id
  {
  }

  lemma PlayPath(base: string, id: string)
    ensures var p := (base + ("/play/" + id))[|base|..];
      p != "/stations" && p != "/status" && p != "/stop" && !("/stations/" <= p) && "/play/" <= p && p[6..] == id
  {
    Joined(base, "/play/" + id);
    var p := "/play/" + id;
    assert p[1] == 'p';
    assert p[..6] == "/play/";
  }

  /** A request that reaches an operation is fixed by it: same method, path and body. */
  lemma {:induction false} RouteDetermines(base: string, r1: Request, r2: Request)
    requires Route(base, r1).Some? && Route(base, r1) == Route(base, r2)
    ensures r1.verb == r2.verb && r1.path == r2.path && r1.body == r2.body
  {
    var p1, p2 := r1.path[|base|..], r2.path[|base|..];
    assert r1.path == base + p1 && r2.path == base + p2 by {
      assert r1.path == r1.path[..|base|] + p1;
      assert r2.path == r2.path[..|base|] + p2;
    }
    match Route(base, r1).value
    case FetchStation(id) =>
      assert p1 == p1[..10] + p1[10..] && p2 == p2[..10] + p2[10..];
    case UpdateStation(id, _) =>
      assert p1 == p1[..10] + p1[10..] && p2 == p2[..10] + p2[10..];
    case DeleteStation(id) =>
      assert p1 == p1[..10] + p1[10..] && p2 == p2[..10] + p2[10..];
    case PlayStation(id) =>
      assert p1 == p1[..6] + p1[6..] && p2 == p2[..6] + p2[6..];
    case _ =>
  }

  /** The client half of the REST surface; `url` is the only state it keeps. */
  class RadioService {
    var url: string

    constructor ()
      ensures url == DefaultUrl
    {
      url := DefaultUrl;
    }

    /** Retargets every request issued from now on. */
    method SetUrl(newUrl: string)
      modifies this
      ensures url == newUrl
    {
      url := newUrl;
    }

    function GetStations(): (r: Request)
      reads this
      ensures Route(url, r) == Some(ListStations) && r.reply == StationList
    {
      Joined(url, "/stations");
      Request(Get, url + "/stations", None, StationList)
    }

    function GetStation(id: string): (r: Request)
      reads this
      ensures Route(url, r) == Some(FetchStation(id)) && r.reply == OneStation
    {
      StationPath(url, id);
      Request(Get, url + ("/stations/" + id), None, OneStation)
    }

    function UpdateStation(id: string, station: StationData): (r: Request)
      reads this
      ensures Route(url, r) == Some(Endpoint.UpdateStation(id, station)) && r.reply == OneStation
    {
      StationPath(url, id);
      Request(Put, url + ("/stations/" + id), Some(station), OneStation)
    }

    /** `radio.service.ts` types this reply as a station; its subscriber reads it as a playback status. */
    function GetStatus(): (r: Request)
      reads this
      ensures Route(url, r) == Some(FetchStatus) && r.reply == OneStation
    {
      Joined(url, "/status");
      Request(Get, url + "/status", None, OneStation)
    }

    function CreateStation(station: StationData): (r: Request)
      reads this
      ensures Route(url, r) == Some(Endpoint.CreateStation(station)) && r.reply == OneStation
    {
      Joined(url, "/stations");
      Request(Post, url + "/stations", Some(station), OneStation)
    }

    function Play(id: string): (r: Request)
      reads this
      ensures Route(url, r) == Some(PlayStation(id)) && r.reply == Discarded
    {
      PlayPath(url, id);
      Request(Get, url + ("/play/" + id), None, Discarded)
    }

    function Stop(): (r: Request)
      reads this
      ensures Route(url, r) == Some(StopPlayback) && r.reply == Discarded
    {
      Joined(url, "/stop");
      Request(Get, url + "/stop", None, Discarded)
    }

    function DeleteStation(id: string): (r: Request)
      reads this
      ensures Route(url, r) == Some(Endpoint.DeleteStation(id)) && r.reply == RawObject
    {
      StationPath(url, id);
      Request(Delete, url + ("/stations/" + id), None, RawObject)
    }
  }
}
