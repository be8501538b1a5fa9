/**
 * The `ProteeSDK` object. Its fields are the ones the source keeps on `self`; a socket
 * is represented only by whether the slot `self.s` holds one. The methods change the
 * fields in place, as the source does, and each is specified by the functions of the
 * other modules.
 */
module ProteeSdk {
  import opened Wrappers
  import opened Text
  import opened JsonValues
  import opened Configuration
  import opened DragDefault
  import opened Shot
  import opened TelemetryFields
  import opened ReceiverThread

  class Sdk {
    var stayConnected: bool
    var hasSocket: bool
    var serverIp: string
    var receivedData: Option<Json>
    var lastReceivedDataTime: Option<real>
    var ballLaunchCounter: nat
    var config: Config

    // The telemetry fields (`_club` ... `_tourname`).
    var club: Json
    var distanceToFlag: real
    var surface: Json
    var hand: Json
    var playerName: Json
    var courseName: Json
    var tourName: Json

    /** Where the receiver thread is. */
    var receiver: Phase

    /** The telemetry fields as one record. */
    function CurrentTelemetry(): Telemetry
      reads this
    {
      Telemetry(club, distanceToFlag, surface, hand, playerName, courseName, tourName)
    }

    /** The fields the receiver thread reads and writes. */
    function State(): Receiver
      reads this
    {
      Receiver(stayConnected, hasSocket, lastReceivedDataTime, receivedData, CurrentTelemetry(), receiver)
    }

    ghost predicate Valid()
      reads this
    {
      Consistent(State()) && ballLaunchCounter >= 1
    }

    /**
     * `__init__`: reads the configuration (`configFile` is `None` when the file does not
     * exist), picks the server address and starts the receiver thread.
     */
    constructor (serverIp: Option<string>, configFile: Option<seq<ConfigLine>>)
      ensures Valid()
      ensures State() == Start && ballLaunchCounter == 1
      ensures config == ReadConfig(Empty, configFile)
      ensures this.serverIp == serverIp.GetOr(config.Ip())
    {
      stayConnected := true;
      hasSocket := false;
      receivedData := None;
      lastReceivedDataTime := None;
      ballLaunchCounter := 1;
      config := Empty;
      this.serverIp := "";
      club, distanceToFlag, surface, hand := JStr("DR"), 0.0, JStr("Tee"), JStr("right");
      playerName, courseName, tourName := JStr(""), JStr(""), JStr("");
      receiver := OuterTop;
      new;
      ReadConfigFile(configFile);
      this.serverIp := serverIp.GetOr(config.Ip());
    }

    /** `read_config_file`: each line of an existing file goes through the dispatch in turn. */
    method ReadConfigFile(file: Option<seq<ConfigLine>>)
      modifies this`config
      ensures config == ReadConfig(old(config), file)
    {
      if file.None? {
        config := config.(boosts := config.boosts[Driver := 0.0]);
        config := config.(boosts := config.boosts[Wood := 0.0]);
        config := config.(boosts := config.boosts[Iron := 0.0]);
        config := config.(boosts := config.boosts[Wedge := 0.0]);
        config := config.(boosts := config.boosts[Putter := 0.0]);
        return;
      }
      var lines := file.value;
      var i := 0;
      while i < |lines|
        invariant 0 <= i <= |lines|
        invariant config == ApplyConfigLines(old(config), lines[..i])
      {
        var line := lines[i];
        ghost var before := config;
        if Contains("IP", line.text) {
          config := config.(ipAddress := Some(RStrip(DropPrefix(line.text, 3))));
        }
        ghost var afterIp := config;
        if |line.numbers| == 1 {
          if Contains("Driver", line.text) {
            config := config.(boosts := config.boosts[Driver := line.numbers[0]]);
          } else if Contains("Wood", line.text) {
            config := config.(boosts := config.boosts[Wood := line.numbers[0]]);
          } else if Contains("Iron", line.text) {
            config := config.(boosts := config.boosts[Iron := line.numbers[0]]);
          } else if Contains("Wedge", line.text) {
            config := config.(boosts := config.boosts[Wedge := line.numbers[0]]);
          } else if Contains("Putter", line.text) {
            config := config.(boosts := config.boosts[Putter := line.numbers[0]]);
          }
        }
        assert config == if SetsBoost(line) then afterIp.(boosts := afterIp.boosts[LineKey(line.text).value := line.numbers[0]])
                         else afterIp;
        ApplyConfigLinesAppend(old(config), lines[..i], line);
        assert lines[..i + 1] == lines[..i] + [line];
        i := i + 1;
      }
      assert lines[..i] == lines;
    }

    /** `is_connected`. */
    function IsConnected(): (connected: bool)
      reads this
      ensures connected == State().IsConnected()
    {
      if !hasSocket then false
      else if lastReceivedDataTime.None? then false
      else true
    }

    /** `disconnect`. */
    method Disconnect()
      requires Valid()
      modifies this`stayConnected
      ensures Valid()
      ensures State() == ReceiverThread.Disconnect(old(State()))
    {
      stayConnected := false;
    }

    /**
     * `parse_returned_data`: overwrites the telemetry fields one by one from the message's
     * "data" dict; `raised` reports the exception that stops it part way.
     */
    method ParseReturnedData(message: Json, parseFloat: string -> Option<real>) returns (raised: bool)
      modifies this`club, this`distanceToFlag, this`surface, this`hand, this`playerName,
               this`courseName, this`tourName
      requires Valid()
      ensures Valid()
      ensures var outcome := ParseMessage(old(CurrentTelemetry()), message, parseFloat);
        raised == outcome.Aborted? && CurrentTelemetry() == outcome.t
    {
      var data := DataObject(message);
      if data.None? {
        return true;
      }
      club := Get(data.value, "club_small", JStr("DR"));
      var distance := ToFloat(Get(data.value, "distance_to_flag", JNum(0.0)), parseFloat);
      if distance.None? {
        return true;
      }
      distanceToFlag := distance.value;
      surface := Get(data.value, "surface", JStr("Tee"));
      hand := Get(data.value, "handed_player", JStr("right"));
      playerName := Get(data.value, "playerName", JStr(""));
      courseName := Get(data.value, "courseName", JStr(""));
      tourName := Get(data.value, "tourName", JStr(""));
      return false;
    }

    /** The loop over the lines of one received chunk. */
    method ProcessChunk(lines: seq<Option<Json>>, at: real, parseFloat: string -> Option<real>)
      requires Valid() && receiver.InnerTop?
      modifies this`receivedData, this`lastReceivedDataTime, this`receiver, this`club, this`distanceToFlag,
               this`surface, this`hand, this`playerName, this`courseName, this`tourName
      ensures Valid()
      ensures State() == ApplyChunk(old(State()), lines, at, parseFloat)
    {
      var i := 0;
      while i < |lines|
        invariant 0 <= i <= |lines|
        invariant Valid()
        invariant receiver.InnerTop? && stayConnected == old(stayConnected) && hasSocket == old(hasSocket)
        invariant ApplyChunk(old(State()), lines, at, parseFloat)
                  == ApplyChunk(State(), lines[i..], at, parseFloat)
      {
        assert lines[i..][0] == lines[i] && lines[i..][1..] == lines[i + 1..];
        if lines[i].None? {
          return;
        }
        var message := lines[i].value;
        receivedData := Some(message);
        var raised := ParseReturnedData(message, parseFloat);
        if raised {
          receiver := Dead;
          return;
        }
        lastReceivedDataTime := Some(at);
        i := i + 1;
      }
    }

    /** One iteration of the receiver thread's loops, with the environment's outcomes in `tick`. */
    method ReceiverStep(tick: Tick, parseFloat: string -> Option<real>)
      requires Valid()
      modifies this`hasSocket, this`receivedData, this`lastReceivedDataTime, this`receiver, this`club,
               this`distanceToFlag, this`surface, this`hand, this`playerName, this`courseName, this`tourName
      ensures Valid()
      ensures State() == Step(old(State()), tick, parseFloat)
    {
      StepConsistent(State(), tick, parseFloat);
      match receiver
      case Exited =>
      case Dead =>
      case OuterTop =>
        if !stayConnected {
          receiver := Exited;
        } else {
          match tick.connect
          case Connected =>
            hasSocket := true;
            receiver := InnerTop;
          case ConnectFailed =>
            hasSocket := false;
          case ConnectError =>
            receiver := Dead;
        }
      case InnerTop =>
        if !stayConnected {
          hasSocket := false;
          receiver := OuterTop;
        } else if lastReceivedDataTime.Some? && tick.now - lastReceivedDataTime.value > StaleAfter {
          lastReceivedDataTime := None;
          hasSocket := false;
          receiver := OuterTop;
        } else if hasSocket {
          match tick.recv
          case Data(lines, at) =>
            ProcessChunk(lines, at, parseFloat);
          case Closed =>
          case Broken =>
            hasSocket := false;
            receiver := OuterTop;
          case TimedOut =>
            hasSocket := false;
            receiver := OuterTop;
          case Reset =>
            hasSocket := false;
            receiver := OuterTop;
          case RecvError =>
            receiver := Dead;
        }
    }

    /** The receiver thread over a run of iterations. */
    method RunReceiver(ticks: seq<Tick>, parseFloat: string -> Option<real>)
      requires Valid()
      modifies this`hasSocket, this`receivedData, this`lastReceivedDataTime, this`receiver, this`club,
               this`distanceToFlag, this`surface, this`hand, this`playerName, this`courseName, this`tourName
      ensures Valid()
      ensures State() == Run(old(State()), ticks, parseFloat)
    {
      var i := 0;
      while i < |ticks|
        invariant 0 <= i <= |ticks|
        invariant Valid()
        invariant Run(old(State()), ticks, parseFloat) == Run(State(), ticks[i..], parseFloat)
      {
        assert ticks[i..][0] == ticks[i] && ticks[i..][1..] == ticks[i + 1..];
        ReceiverStep(ticks[i], parseFloat);
        i := i + 1;
      }
    }

    /**
     * `launch_ball`: bumps the counter unless repeating, fills in the `data` dict of the
     * minimal message key by key, and sends it if there is a socket. `sendFails` says
     * whether the send raises an OSError; `show` is Python's `str()` on a number.
     */
    method LaunchBall(a: ShotArgs, repeat: bool, sendFails: bool, show: real -> string)
      returns (outcome: LaunchOutcome)
      requires Valid()
      modifies this`ballLaunchCounter
      ensures Valid()
      ensures ballLaunchCounter == NextCounter(old(ballLaunchCounter), repeat)
      ensures outcome == Launch(ballLaunchCounter, a, repeat, club, config, hasSocket, sendFails, show)
    {
      var data := Template;
      var clubspeed, clubface := a.clubspeed, a.clubface;
      if !repeat {
        ballLaunchCounter := ballLaunchCounter + 1;
      } else {
        clubspeed := Some(a.launchangle);
        clubface := Some(a.launchangle);
      }
      data := data[Counter := Decimal(ballLaunchCounter)];
      data := data[ShotNumber := Decimal(ballLaunchCounter)];
      data := data[BallSpeed := show(a.ballspeed)];
      data := data[BallPath := show(a.ballpath)];
      data := data[LaunchAngle := show(a.launchangle)];
      data := data[BackSpin := show(a.backspin)];
      data := data[SideSpin := show(a.sidespin)];
      data := PutIf(data, ClubSpeed, clubspeed, show);
      data := PutIf(data, ClubFace, clubface, show);
      data := PutIf(data, ClubPath, a.clubpath, show);
      data := PutIf(data, SweetSpot, a.sweetspot, show);
      var drag := a.drag;
      if drag.None? {
        drag := DefaultDrag(club, config);
        if drag.None? {
          return Raised;
        }
      }
      assert drag == ResolveDrag(a.drag, club, config);
      data := data[Drag := show(drag.value)];
      data := PutIf(data, Carry, a.carry, show);
      assert data == InsertionOrder(ballLaunchCounter, Effective(a, repeat), drag.value, show);
      InsertionOrderIsShotData(ballLaunchCounter, Effective(a, repeat), drag.value, show);
      if hasSocket {
        if sendFails {
          return SendFailed;
        }
        return Sent(ShotMessage(data));
      }
      return NoSocket;
    }
  }
}
