/**
 * The home page of the radio controller: the local copy of the server's
 * station list and playback status, the live subscriptions that feed it, and
 * the callbacks that reconcile it with the results of remote calls. Every
 * callback is one atomic method; the network result is its parameter.
 */
module Home {
  import opened Wrappers
  import opened RadioApi

  // ---------------------------------------------------------------------------
  // Values and objects the page works with
  // ---------------------------------------------------------------------------

  /** A station as the page holds it: an object, compared by identity, whose name and url an edit writes back. */
  class Station {
    var id: Option<string>
    var name: string
    var url: string

    constructor (id: Option<string>, name: string, url: string)
      ensures this.id == id && this.name == name && this.url == url
    {
      this.id, this.name, this.url := id, name, url;
    }
  }

  /** The wire form of a station object at this moment. */
  function Snapshot(s: Station): StationData
    reads s
  {
    StationData(s.id, s.name, s.url)
  }

  /** The playback status the poll receives: `{selectedStation?, isPlaying}`. */
  datatype Status = Status(selectedStation: Option<StationData>, isPlaying: bool)

  /** The two feeds a session subscribes to. */
  datatype Feed = StationsFeed | StatusPoll

  /** A live or finished subscription to one feed. */
  class Subscription {
    const feed: Feed
    var closed: bool

    constructor (feed: Feed)
      ensures this.feed == feed && !closed
    {
      this.feed := feed;
      closed := false;
    }

    /** Unsubscribing twice is harmless. */
    method Unsubscribe()
      modifies this
      ensures closed
    {
      closed := true;
    }
  }

  /** The buttons of the per-station action sheet. */
  datatype Button = EditButton | PlayButton | DeleteButton | StopButton

  // ---------------------------------------------------------------------------
  // JavaScript value semantics the page relies on
  // ---------------------------------------------------------------------------

  /** An optional string is truthy when it is present and not empty. */
  predicate Truthy(s: Option<string>)
  {
    s.Some? && s.value != ""
  }

  /** How a template literal renders an optional id: a missing one becomes the text "undefined". */
  function IdText(id: Option<string>): string
  {
    match id
    case Some(v) => v
    case None => "undefined"
  }

  // ---------------------------------------------------------------------------
  // The server address
  // ---------------------------------------------------------------------------

  const Scheme: string := "http://"
  const PortSuffix: string := ":3000"

  /** The base URL the page derives from a RaspberryPi address. */
  function AddressUrl(address: string): string
  {
    Scheme + address + PortSuffix
  }

  /** Recovers the address from a base URL built by `AddressUrl`. */
  function AddressOf(url: string): Option<string>
  {
    if |url| >= |Scheme| + |PortSuffix| && url[..|Scheme|] == Scheme && url[|url| - |PortSuffix|..] == PortSuffix
    then Some(url[|Scheme|..|url| - |PortSuffix|])
    else None
  }

  lemma AddressRoundTrip(address: string)
    ensures AddressOf(AddressUrl(address)) == Some(address)
  {
  }

  /** Two addresses give the same base URL only if they are the same address. */
  lemma AddressUrlInjective(a: string, b: string)
    requires AddressUrl(a) == AddressUrl(b)
    ensures a == b
  {
    AddressRoundTrip(a);
    AddressRoundTrip(b);
  }

  /** The address the prompt offers: the stored one when it is truthy, otherwise "localhost". */
  function PromptDefault(stored: Option<string>): (r: string)
    ensures r != ""
    ensures Truthy(stored) ==> r == stored.value
    ensures !Truthy(stored) ==> r == "localhost"
  {
    if Truthy(stored) then stored.value else "localhost"
  }

  // ---------------------------------------------------------------------------
  // Finding and removing a station by identity
  // ---------------------------------------------------------------------------

  /** `Array.prototype.indexOf` with reference equality: the first position of `x`, or -1. */
  function IndexOf<T(==)>(list: seq<T>, x: T): (r: int)
    ensures -1 <= r < |list|
    ensures r == -1 <==> x !in list
    ensures 0 <= r ==> list[r] == x && forall k :: 0 <= k < r ==> list[k] != x
  {
    if |list| == 0 then -1
    else if list[0] == x then 0
    else
      var k := IndexOf(list[1..], x);
      if k < 0 then -1 else k + 1
  }

  /** What `indexOf` followed by `splice(index, 1)` when the index is found leaves of the list. */
  function RemoveFirst<T(==)>(list: seq<T>, x: T): seq<T>
  {
    var i := IndexOf(list, x);
    if i >= 0 then list[..i] + list[i + 1..] else list
  }

  /** Removing an element the list does not hold changes nothing. */
  lemma RemoveFirstAbsent<T>(list: seq<T>, x: T)
    requires x !in list
    ensures RemoveFirst(list, x) == list
  {
  }

  /**
   * Removing an element the list holds drops exactly its first occurrence:
   * one element shorter, the others in their old order around it.
   */
  lemma RemoveFirstPresent<T>(list: seq<T>, x: T)
    requires x in list
    ensures var r := RemoveFirst(list, x); var i := IndexOf(list, x);
      |r| == |list| - 1 && r[..i] == list[..i] && list == r[..i] + [x] + r[i..]
  {
    var i := IndexOf(list, x);
    var r := list[..i] + list[i + 1..];
    assert RemoveFirst(list, x) == r;
    assert r[..i] == list[..i];
    assert r[i..] == list[i + 1..];
    assert list == list[..i] + [list[i]] + list[i + 1..];
  }

  /** Removing takes exactly one copy of `x` out of the multiset of elements, or none when absent. */
  lemma RemoveFirstMultiset<T>(list: seq<T>, x: T)
    ensures x in list ==> multiset(RemoveFirst(list, x)) + multiset{x} == multiset(list)
    ensures x !in list ==> multiset(RemoveFirst(list, x)) == multiset(list)
  {
    if x in list {
      RemoveFirstPresent(list, x);
      var r := RemoveFirst(list, x);
      var i := IndexOf(list, x);
      assert r == r[..i] + r[i..];
    }
  }

  /** In a list without repeated objects, the removed object is gone afterwards. */
  lemma RemoveFirstGone<T>(list: seq<T>, x: T)
    requires forall i, j :: 0 <= i < j < |list| ==> list[i] != list[j]
    ensures x !in RemoveFirst(list, x)
  {
  }

  /** Deleting a station right after appending it restores the list it was appended to. */
  lemma AppendThenRemove<T>(list: seq<T>, x: T)
    requires x !in list
    ensures RemoveFirst(list + [x], x) == list
  {
  }

  // ---------------------------------------------------------------------------
  // The page
  // ---------------------------------------------------------------------------

  class HomePage {
    const radio: RadioService
    /** Absent until the first load of the station list. */
    var stations: Option<seq<Station>>
    var status: Option<Status>
    /** Every subscription taken so far; unsubscribing does not shorten it. */
    var subscriptions: seq<Subscription>
    var error: bool

    constructor (radio: RadioService)
      ensures this.radio == radio
      ensures stations == None && status == None && subscriptions == [] && !error
    {
      this.radio := radio;
      stations, status, subscriptions, error := None, None, [], false;
    }

    /** Only the two subscriptions taken last may still be open. */
    ghost predicate OneLiveSession()
      reads this, subscriptions
    {
      forall j :: 0 <= j < |subscriptions| - 2 ==> subscriptions[j].closed
    }

    // --- session lifecycle ---------------------------------------------------

    /**
     * Start-up: a truthy stored address configures the service and subscribes;
     * otherwise the address prompt is shown, pre-filled with the returned text.
     */
    method OnInit(stored: Option<string>) returns (load: Option<Request>, prompt: Option<string>)
      modifies this, radio
      ensures prompt.None? <==> Truthy(stored)
      ensures load.Some? <==> Truthy(stored)
      ensures load.Some? ==> Route(AddressUrl(stored.value), load.value) == Some(ListStations)
      ensures prompt.Some? ==> prompt.value == PromptDefault(stored) == "localhost"
      ensures Truthy(stored) ==> radio.url == AddressUrl(stored.value) && Subscribed(old(subscriptions))
      ensures Truthy(stored) ==> fresh(subscriptions[|old(subscriptions)|]) && fresh(subscriptions[|old(subscriptions)| + 1])
      ensures old(subscriptions) == [] ==> OneLiveSession()
      ensures !Truthy(stored) ==> radio.url == old(radio.url) && subscriptions == old(subscriptions) && error == old(error)
      ensures stations == old(stations) && status == old(status)
    {
      if Truthy(stored) {
        radio.SetUrl(AddressUrl(stored.value));
        var request := Subscribe();
        load, prompt := Some(request), None;
      } else {
        load, prompt := None, Some(PromptDefault(stored));
      }
    }

    /** After a subscribe: the error flag is cleared and two fresh, open subscriptions follow `before`. */
    ghost predicate Subscribed(before: seq<Subscription>)
      reads this, subscriptions
    {
      && !error
      && |subscriptions| == |before| + 2
      && subscriptions[..|before|] == before
      && subscriptions[|before|].feed == StationsFeed && !subscriptions[|before|].closed
      && subscriptions[|before| + 1].feed == StatusPoll && !subscriptions[|before| + 1].closed
    }

    /** Clears the error flag and appends the station-list subscription and the status poll. */
    method Subscribe() returns (load: Request)
      modifies this
      ensures Route(radio.url, load) == Some(ListStations)
      ensures Subscribed(old(subscriptions))
      ensures fresh(subscriptions[|old(subscriptions)|]) && fresh(subscriptions[|old(subscriptions)| + 1])
      ensures stations == old(stations) && status == old(status)
    {
      error := false;
      load := radio.GetStations();
      var stationsSub := new Subscription(StationsFeed);
      subscriptions := subscriptions + [stationsSub];
      var poll := new Subscription(StatusPoll);
      subscriptions := subscriptions + [poll];
    }

    /** Unsubscribes every subscription held, one after the other; the list itself is kept. */
    method Unsubscribe()
      modifies subscriptions
      ensures subscriptions == old(subscriptions)
      ensures forall s :: s in subscriptions ==> s.closed
    {
      var i := 0;
      while i < |subscriptions|
        invariant 0 <= i <= |subscriptions|
        invariant forall j :: 0 <= j < i ==> subscriptions[j].closed
      {
        subscriptions[i].Unsubscribe();
        i := i + 1;
      }
    }

    method OnDestroy()
      modifies subscriptions
      ensures forall s :: s in subscriptions ==> s.closed
    {
      Unsubscribe();
    }

    /**
     * The prompt's OK button: close everything held so far, point the service
     * at the new address, then subscribe afresh. The station list and status
     * are kept until the new session delivers.
     */
    method PromptConfirmed(address: string) returns (load: Request)
      modifies this, radio, subscriptions
      ensures forall s :: s in old(subscriptions) ==> s.closed
      ensures radio.url == AddressUrl(address)
      ensures Route(AddressUrl(address), load) == Some(ListStations)
      ensures Subscribed(old(subscriptions))
      ensures fresh(subscriptions[|old(subscriptions)|]) && fresh(subscriptions[|old(subscriptions)| + 1])
      ensures OneLiveSession()
      ensures stations == old(stations) && status == old(status)
    {
      Unsubscribe();
      radio.SetUrl(AddressUrl(address));
      ghost var before := subscriptions;
      load := Subscribe();
      assert forall j :: 0 <= j < |before| ==> subscriptions[j] == before[j];
    }

    // --- the two feeds -------------------------------------------------------

    /**
     * The station-list request delivers. Through a closed subscription nothing
     * arrives; otherwise the list replaces the local one, or the failure is
     * reported. Either way the one-shot request is finished afterwards.
     */
    method StationsDelivered(sub: Subscription, response: Response<seq<Station>>)
      requires sub.feed == StationsFeed
      modifies this, sub
      ensures sub.closed
      ensures old(sub.closed) ==> stations == old(stations) && error == old(error)
      ensures !old(sub.closed) && response.Succeeded? ==> stations == Some(response.value) && error == old(error)
      ensures !old(sub.closed) && response.Failed? ==> stations == old(stations) && error
      ensures status == old(status) && subscriptions == old(subscriptions)
    {
      if !sub.closed {
        match response
        case Succeeded(list) => stations := Some(list);
        case Failed => ShowError();
      }
      sub.closed := true;
    }

    /** One tick of the status poll: the status request issued, if any. */
    method PollTick(sub: Subscription) returns (request: Option<Request>)
      requires sub.feed == StatusPoll
      ensures request.Some? <==> !sub.closed && stations.Some? && |stations.value| > 0
      ensures request.Some? ==> Route(radio.url, request.value) == Some(FetchStatus)
    {
      if !sub.closed && stations.Some? && |stations.value| > 0 {
        request := Some(radio.GetStatus());
      } else {
        request := None;
      }
    }

    /**
     * The status request delivers. A status replaces the local one; a failure
     * is only logged, but it ends the poll for the rest of the session.
     */
    method StatusDelivered(sub: Subscription, response: Response<Status>)
      requires sub.feed == StatusPoll
      modifies this, sub
      ensures stations == old(stations) && error == old(error) && subscriptions == old(subscriptions)
      ensures status == (if !old(sub.closed) && response.Succeeded? then Some(response.value) else old(status))
      ensures sub.closed == (old(sub.closed) || response.Failed?)
    {
      if !sub.closed {
        match response
        case Succeeded(s) => status := Some(s);
        case Failed => sub.closed := true;
      }
    }

    // --- errors ----------------------------------------------------------------

    /** Raises the error flag; the alert itself is presentation. */
    method ShowError()
      modifies this
      ensures error
      ensures stations == old(stations) && status == old(status) && subscriptions == old(subscriptions)
    {
      error := true;
    }

    // --- the action sheet --------------------------------------------------------

    /** Whether the status shows `station` as the one playing (ids compared with `===`). */
    function IsPlaying(station: Station): bool
      reads this, station
    {
      status.Some? && status.value.isPlaying && status.value.selectedStation.Some?
        && status.value.selectedStation.value.id == station.id
    }

    /** The buttons `onClick` offers for a station. */
    function Buttons(station: Station): (r: seq<Button>)
      reads this, station
      ensures StopButton in r <==> IsPlaying(station)
      ensures PlayButton in r <==> !IsPlaying(station)
      ensures IsPlaying(station) ==> r == [StopButton]
      ensures !IsPlaying(station) ==> r == [EditButton, PlayButton, DeleteButton]
    {
      if IsPlaying(station) then [StopButton] else [EditButton, PlayButton, DeleteButton]
    }

    // --- commands ------------------------------------------------------------------

    /** Play: a request is issued only for a station with a truthy id. */
    method Play(station: Station) returns (request: Option<Request>)
      ensures request.Some? <==> Truthy(station.id)
      ensures request.Some? ==> Route(radio.url, request.value) == Some(PlayStation(station.id.value))
      ensures request.Some? ==> request.value.reply == Discarded
    {
      if Truthy(station.id) {
        request := Some(radio.Play(station.id.value));
      } else {
        request := None;
      }
    }

    /** The Stop button's request. */
    function StopRequest(): (r: Request)
      reads radio
      ensures Route(radio.url, r) == Some(StopPlayback)
    {
      radio.Stop()
    }

    /** The update an edit sends: the copy as body, addressed by the original station's id. */
    function SaveRequest(station: Station, copy: StationData): (r: Request)
      reads radio, station
      ensures station.id.Some? ==> Route(radio.url, r) == Some(UpdateStation(station.id.value, copy))
      ensures station.id.None? ==> Route(radio.url, r) == Some(UpdateStation("undefined", copy))
    {
      radio.UpdateStation(IdText(station.id), copy)
    }

    /**
     * The update completes. On success only the edited object's name and url
     * change, to the copy's; its id and every other station stay as they were.
     */
    method SaveCompleted(station: Station, copy: StationData, response: Response<()>)
      modifies this, station
      ensures stations == old(stations) && status == old(status) && subscriptions == old(subscriptions)
      ensures response.Succeeded? ==> Snapshot(station) == old(Snapshot(station)).(name := copy.name, url := copy.url)
      ensures response.Succeeded? ==> error == old(error)
      ensures response.Failed? ==> Snapshot(station) == old(Snapshot(station)) && error
      ensures response.Succeeded? && copy == old(Snapshot(station)) ==> Snapshot(station) == old(Snapshot(station))
      ensures stations.Some? ==> forall t :: t in stations.value && t != station ==> Snapshot(t) == old(Snapshot(t))
    {
      match response
      case Succeeded(_) =>
        station.name := copy.name;
        station.url := copy.url;
      case Failed => ShowError();
    }

    /** The create request, carrying the draft as edited in the dialog. */
    function CreateRequest(draft: StationData): (r: Request)
      reads radio
      ensures Route(radio.url, r) == Some(CreateStation(draft))
    {
      radio.CreateStation(draft)
    }

    /**
     * The create completes. On success the server's station is appended and
     * nothing else moves; while no list is loaded the append throws, and
     * nothing changes.
     */
    method CreateCompleted(response: Response<Station>)
      modifies this
      ensures response.Succeeded? && old(stations).Some? ==> stations == Some(old(stations).value + [response.value])
      ensures response.Succeeded? ==> error == old(error)
      ensures response.Succeeded? && old(stations).None? ==> stations == None
      ensures response.Failed? ==> stations == old(stations) && error
      ensures status == old(status) && subscriptions == old(subscriptions)
    {
      match response
      case Succeeded(created) =>
        if stations.Some? {
          stations := Some(stations.value + [created]);
        }
      case Failed => ShowError();
    }

    /** The delete request, addressed by the station's id as the template renders it. */
    function DeleteRequest(station: Station): (r: Request)
      reads radio, station
      ensures station.id.Some? ==> Route(radio.url, r) == Some(DeleteStation(station.id.value))
      ensures station.id.None? ==> Route(radio.url, r) == Some(DeleteStation("undefined"))
    {
      radio.DeleteStation(IdText(station.id))
    }

    /**
     * The delete completes. On success the first occurrence of the very object
     * is spliced out; an absent object leaves the list as it was, and with no
     * list loaded the lookup throws and nothing changes.
     */
    method DeleteCompleted(station: Station, response: Response<()>)
      modifies this
      ensures response.Succeeded? ==> error == old(error)
      ensures response.Succeeded? && old(stations).Some? ==> stations == Some(RemoveFirst(old(stations).value, station))
      ensures response.Succeeded? && old(stations).None? ==> stations == None
      ensures response.Failed? ==> stations == old(stations) && error
      ensures status == old(status) && subscriptions == old(subscriptions)
    {
      if response.Failed? {
        ShowError();
      } else if stations.Some? {
        var list := stations.value;
        var index := IndexOf(list, station);
        if index >= 0 {
          list := list[..index] + list[index + 1..];
        }
        stations := Some(list);
      }
    }
  }

  /** In a station list whose ids are pairwise distinct, the page shows at most one station as playing. */
  lemma AtMostOnePlaying(page: HomePage, list: seq<Station>, i: nat, j: nat)
    requires forall a, b :: 0 <= a < b < |list| ==> list[a].id != list[b].id
    requires i < |list| && j < |list|
    requires page.IsPlaying(list[i]) && page.IsPlaying(list[j])
    ensures i == j
  {
  }
}
