/**
 * The telemetry client: picks the record layout whose version tag matches
 * the shared-memory buffer (or the mock source), hands out telemetry samples
 * with the nearest cities filled in, and drops its source on close.
 *
 * The shared-memory segment is an input (`segment`): `None` when it does
 * not exist. The verdict of the 1.10 layout's version check and the decoded
 * record (`parse_data`) are inputs too, since that code is not part of this
 * model.
 */
module TelemetryClient {
  import opened Wrappers
  import opened Python
  import opened TelemetryModel
  import opened Layout
  import Version112
  import Location

  /** What `telemetry_version` can hold: a layout module or the mock version function. */
  datatype Source = Version110 | Version112Layout | MockVersion

  /** The layouts tried, in order. */
  const Candidates: seq<Source> := [Version110, Version112Layout]

  /** `version.is_same_version(buf)` for one candidate layout. */
  function Accepts(v: Source, buf: seq<byte>, accepts110: Result<bool, PyError>): Result<bool, PyError> {
    match v
    case Version110 => accepts110
    case Version112Layout => Version112.IsSameVersion(buf)
    case MockVersion => Success(false)
  }

  /** The first candidate that accepts the buffer; a check that raises stops the search. */
  function FirstAccepted(cands: seq<Source>, buf: seq<byte>, accepts110: Result<bool, PyError>): Result<Option<Source>, PyError> {
    if cands == [] then Success(None)
    else
      var ok :- Accepts(cands[0], buf, accepts110);
      if ok then Success(Some(cands[0])) else FirstAccepted(cands[1..], buf, accepts110)
  }

  /**
   * The 1.10 layout is preferred; the 1.12 layout is picked exactly when
   * 1.10 declines and bytes 40 to 43 hold 12, and a buffer neither accepts
   * selects nothing.
   */
  lemma SelectionOrder(buf: seq<byte>, accepts110: Result<bool, PyError>)
    ensures accepts110 == Success(true) ==> FirstAccepted(Candidates, buf, accepts110) == Success(Some(Version110))
    ensures accepts110.Failure? ==> FirstAccepted(Candidates, buf, accepts110) == Failure(accepts110.error)
    ensures accepts110 == Success(false) ==>
              var selected := FirstAccepted(Candidates, buf, accepts110);
              selected == Success(Some(Version112Layout)) <==> |buf| >= 44 && buf[40..44] == EncodeU32(12)
    ensures accepts110 == Success(false) ==>
              var selected := FirstAccepted(Candidates, buf, accepts110);
              selected == Success(None) <==> |buf| >= 44 && buf[40..44] != EncodeU32(12)
  {
    Version112.IsSameVersionIff(buf);
    assert Candidates[1..] == [Version112Layout];
    assert [Version112Layout][1..] == [];
    if accepts110 == Success(false) {
      assert FirstAccepted(Candidates, buf, accepts110) == FirstAccepted([Version112Layout], buf, accepts110);
      if |buf| >= 44 && buf[40..44] != EncodeU32(12) {
        assert Version112.IsSameVersion(buf) == Success(false);
        assert FirstAccepted([Version112Layout], buf, accepts110) == FirstAccepted([], buf, accepts110);
      }
    }
  }

  class TelemetryClientService {
    /** `MOCK_TELEMETRY_DATA`. */
    const mockMode: bool
    const mock: MockTelemetry
    /** The location service's city dataset. */
    const cities: seq<City>

    var sharedMemory: Option<seq<byte>>
    var telemetryVersion: Option<Source>
    var running: bool

    /** The fields `__init__` sets before it calls `init` (see `Create`). */
    constructor(mockMode: bool, cities: seq<City>)
      ensures this.mockMode == mockMode && this.cities == cities
      ensures sharedMemory.None? && telemetryVersion.None? && !running
      ensures fresh(mock) && mock.State() == MockState(mock.truck, mock.navigation, 0)
      ensures Plausible(mock.State())
    {
      this.mockMode := mockMode;
      this.cities := cities;
      mock := new MockTelemetry();
      sharedMemory := None;
      telemetryVersion := None;
      running := false;
    }

    /**
     * Building a service (`__init__`): the fields above, then `init`, whose
     * error escapes the constructor. A service that is built always has a
     * version.
     */
    static method Create(mockMode: bool, cities: seq<City>, segment: Option<seq<byte>>, accepts110: Result<bool, PyError>)
      returns (r: Result<TelemetryClientService, PyError>)
      ensures r.Success? ==>
                && fresh(r.value) && fresh(r.value.mock)
                && r.value.mockMode == mockMode && r.value.cities == cities
                && r.value.telemetryVersion.Some? && !r.value.running
                && r.value.mock.State() == MockState(r.value.mock.truck, r.value.mock.navigation, 0)
      ensures mockMode ==> r.Success? && r.value.telemetryVersion == Some(MockVersion) && r.value.sharedMemory.None?
      ensures !mockMode && segment.None? ==> r == Failure(ConnectionError("Shared memory segment not found."))
      ensures !mockMode && segment.Some? ==>
                var selected := FirstAccepted(Candidates, segment.value, accepts110);
                && (selected.Failure? ==> r == Failure(selected.error))
                && (selected == Success(None) ==> r == Failure(ValueError("Unsupported telemetry SDK version")))
                && (selected.Success? && selected.value.Some? ==>
                      r.Success? && r.value.telemetryVersion == selected.value && r.value.sharedMemory == segment)
    {
      var service := new TelemetryClientService(mockMode, cities);
      var init := service.Init(segment, accepts110);
      if init.Failure? {
        return Failure(init.error);
      }
      r := Success(service);
    }

    /**
     * `init`: the mock version in mock mode; otherwise opens the segment and
     * keeps the first layout that accepts it. A missing segment raises
     * `ConnectionError`; no version at all raises `ValueError`.
     */
    method Init(segment: Option<seq<byte>>, accepts110: Result<bool, PyError>) returns (r: Result<(), PyError>)
      modifies this
      ensures running == old(running)
      ensures mockMode ==> r.Success? && telemetryVersion == Some(MockVersion) && sharedMemory == old(sharedMemory)
      ensures !mockMode && segment.None? ==>
                r == Failure(ConnectionError("Shared memory segment not found."))
                && sharedMemory == old(sharedMemory) && telemetryVersion == old(telemetryVersion)
      ensures !mockMode && segment.Some? ==>
                var selected := FirstAccepted(Candidates, segment.value, accepts110);
                && sharedMemory == segment
                && (selected.Failure? ==> r == Failure(selected.error) && telemetryVersion == old(telemetryVersion))
                && (selected.Success? && selected.value.Some? ==> r.Success? && telemetryVersion == selected.value)
                && (selected.Success? && selected.value.None? ==>
                      telemetryVersion == old(telemetryVersion)
                      && r == if old(telemetryVersion).None? then Failure(ValueError("Unsupported telemetry SDK version")) else Success(()))
    {
      if mockMode {
        telemetryVersion := Some(MockVersion);
        return Success(());
      }
      if segment.None? {
        return Failure(ConnectionError("Shared memory segment not found."));
      }
      sharedMemory := segment;
      var buf := segment.value;
      var i := 0;
      while i < |Candidates|
        invariant 0 <= i <= |Candidates|
        invariant FirstAccepted(Candidates, buf, accepts110) == FirstAccepted(Candidates[i..], buf, accepts110)
        invariant telemetryVersion == old(telemetryVersion) && sharedMemory == segment && running == old(running)
      {
        var ok := Accepts(Candidates[i], buf, accepts110);
        if ok.Failure? {
          return Failure(ok.error);
        }
        if ok.value {
          telemetryVersion := Some(Candidates[i]);
          break;
        }
        assert Candidates[i..][1..] == Candidates[i + 1..];
        i := i + 1;
      }
      if telemetryVersion.None? {
        return Failure(ValueError("Unsupported telemetry SDK version"));
      }
      r := Success(());
    }

    /**
     * `get_data`: raises `ValueError` without a version; otherwise takes one
     * mock update (or the decoded record) and overwrites its nearest cities
     * with the lookup for the truck's position. In mock mode the record's
     * navigation is the mock's own, so the mock sees the new cities too.
     */
    method GetData(d: Draws, parsed: TelemetryData) returns (r: Result<TelemetryData, PyError>)
      modifies this, mock
      ensures sharedMemory == old(sharedMemory) && telemetryVersion == old(telemetryVersion) && running == old(running)
      ensures old(telemetryVersion).None? ==> r == Failure(ValueError("Telemetry version is not set.")) && mock.State() == old(mock.State())
      ensures old(telemetryVersion).Some? && mockMode ==>
                && mock.truck == Step(old(mock.State()), d).truck
                && mock.toggleCount == Step(old(mock.State()), d).toggleCount
                && r.Success?
                && var cs := Location.NearestCities(mock.truck.coordinateX, mock.truck.coordinateY, cities);
                   mock.navigation == Step(old(mock.State()), d).navigation.(nearestCities := Some(cs))
                   && r.value == TelemetryData(Some(mock.truck), Some(mock.game), Some(mock.navigation), Some(mock.job))
      ensures old(telemetryVersion).Some? && !mockMode ==>
                && mock.State() == old(mock.State())
                && (r.Failure? <==> parsed.truck.None? || parsed.navigation.None?)
                && (r.Failure? ==> r.error.AttributeError?)
                && (r.Success? ==> r.value == parsed.(navigation := Some(parsed.navigation.value.(nearestCities := Some(
                       Location.NearestCities(parsed.truck.value.coordinateX, parsed.truck.value.coordinateY, cities))))))
      ensures mock.game == old(mock.game) && mock.job == old(mock.job)
    {
      if telemetryVersion.None? {
        return Failure(ValueError("Telemetry version is not set."));
      }
      var data;
      if mockMode {
        data := mock.GetTelemetryData(d);
      } else {
        data := parsed;
      }
      if data.truck.None? {
        return Failure(AttributeError("'NoneType' object has no attribute 'coordinate_x'"));
      }
      var nearest := Location.NearestCities(data.truck.value.coordinateX, data.truck.value.coordinateY, cities);
      if data.navigation.None? {
        return Failure(AttributeError("'NoneType' object has no attribute 'nearest_cities'"));
      }
      data := data.(navigation := Some(data.navigation.value.(nearestCities := Some(nearest))));
      if mockMode {
        mock.navigation := data.navigation.value;
      }
      r := Success(data);
    }

    /**
     * `get_version_number`: 0 without a version; calling the method on the
     * mock version function raises `AttributeError`. The 1.10 layout's
     * number is an input.
     */
    function GetVersionNumber(version110Number: int): (r: Result<int, PyError>)
      reads this
      ensures telemetryVersion.None? ==> r == Success(0)
      ensures telemetryVersion == Some(Version112Layout) ==> r == Success(12)
      ensures telemetryVersion == Some(Version110) ==> r == Success(version110Number)
      ensures telemetryVersion == Some(MockVersion) ==> r.Failure? && r.error.AttributeError?
    {
      match telemetryVersion
      case None => Success(0)
      case Some(Version110) => Success(version110Number)
      case Some(Version112Layout) => Success(Version112.GetVersionNumber())
      case Some(MockVersion) => Failure(AttributeError("'function' object has no attribute 'get_version_number'"))
    }

    /** `close`: stops, drops the segment and the version; a second close changes nothing. */
    method Close()
      modifies this
      ensures !running && sharedMemory.None? && telemetryVersion.None?
    {
      running := false;
      if sharedMemory.Some? {
        sharedMemory := None;
      }
      telemetryVersion := None;
    }
  }

  /** After `close`, `get_data` raises until the client is initialised again. */
  method CloseThenGetData(client: TelemetryClientService, d: Draws, parsed: TelemetryData) returns (r: Result<TelemetryData, PyError>)
    modifies client, client.mock
    ensures r == Failure(ValueError("Telemetry version is not set."))
  {
    client.Close();
    r := client.GetData(d, parsed);
  }
}
