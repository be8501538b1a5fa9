/**
 * The outbound shot message of `launch_ball`: its `data` object, the fixed envelope
 * around it, the shot counter and what the call returns.
 */
module Shot {
  import opened Wrappers
  import opened Text
  import opened JsonValues
  import opened Configuration
  import opened DragDefault

  /**
   * The arguments of `launch_ball`. Numbers are `real`; an optional argument the caller
   * leaves out is `None`.
   */
  datatype ShotArgs = ShotArgs(
    ballspeed: real, ballpath: real, launchangle: real, backspin: real, sidespin: real,
    clubspeed: Option<real>, clubface: Option<real>, clubpath: Option<real>,
    sweetspot: Option<real>, drag: Option<real>, carry: Option<real>)

  /** Python truthiness of an optional number: given and non-zero. */
  predicate Truthy(v: Option<real>) {
    v.Some? && v.value != 0.0
  }

  /** The arguments after the `repeat` branch: a repeat sends launchangle as clubspeed and clubface. */
  function Effective(a: ShotArgs, repeat: bool): ShotArgs {
    if repeat then a.(clubspeed := Some(a.launchangle), clubface := Some(a.launchangle)) else a
  }

  /** The shot counter after a call: bumped by one unless the call is a repeat. */
  function NextCounter(counter: nat, repeat: bool): nat {
    if repeat then counter else counter + 1
  }

  /** The keys of the `data` object. */
  datatype Field =
    | Counter | ShotNumber | BallSpeed | BallPath | LaunchAngle | BackSpin | SideSpin
    | ClubSpeed | ClubFace | ClubPath | SweetSpot | Drag | Carry

  /** The key as it appears on the wire. */
  function Name(f: Field): string {
    match f
    case Counter => "counter"
    case ShotNumber => "shotnumber"
    case BallSpeed => "ballspeed"
    case BallPath => "ballpath"
    case LaunchAngle => "launchangle"
    case BackSpin => "backspin"
    case SideSpin => "sidespin"
    case ClubSpeed => "clubspeed"
    case ClubFace => "clubface"
    case ClubPath => "clubpath"
    case SweetSpot => "sweetspot"
    case Drag => "drag"
    case Carry => "carry"
  }

  /** No two keys share a wire name. */
  lemma NamesDistinct()
    ensures forall f, g :: Name(f) == Name(g) ==> f == g
  {
  }

  /** The keys a shot carries only when the caller's value is truthy. */
  predicate IsOptional(f: Field) {
    f.ClubSpeed? || f.ClubFace? || f.ClubPath? || f.SweetSpot? || f.Carry?
  }

  /** The keys every shot carries. */
  const RequiredFields: set<Field> := {Counter, ShotNumber, BallSpeed, BallPath, LaunchAngle, BackSpin, SideSpin, Drag}

  /** Every key a shot may carry. */
  const AllFields: set<Field> := RequiredFields + {ClubSpeed, ClubFace, ClubPath, SweetSpot, Carry}

  /** Every key is one of the thirteen. */
  lemma AllFieldsComplete(f: Field)
    ensures f in AllFields
  {
    match f
    case Counter => case ShotNumber => case BallSpeed => case BallPath => case LaunchAngle =>
    case BackSpin => case SideSpin => case ClubSpeed => case ClubFace => case ClubPath =>
    case SweetSpot => case Drag => case Carry =>
  }

  /** The caller's value for an optional key. */
  function OptionalArg(a: ShotArgs, f: Field): Option<real>
    requires IsOptional(f)
  {
    match f
    case ClubSpeed => a.clubspeed
    case ClubFace => a.clubface
    case ClubPath => a.clubpath
    case SweetSpot => a.sweetspot
    case Carry => a.carry
  }

  /** Whether a shot carries the key `f`: always for a required key, for an optional one when truthy. */
  predicate Present(a: ShotArgs, f: Field) {
    !IsOptional(f) || Truthy(OptionalArg(a, f))
  }

  /** The string a shot sends under the key `f` when it carries it. */
  function FieldValue(counter: nat, a: ShotArgs, drag: real, show: real -> string, f: Field): string
    requires Present(a, f)
  {
    match f
    case Counter => Decimal(counter)
    case ShotNumber => Decimal(counter)
    case BallSpeed => show(a.ballspeed)
    case BallPath => show(a.ballpath)
    case LaunchAngle => show(a.launchangle)
    case BackSpin => show(a.backspin)
    case SideSpin => show(a.sidespin)
    case Drag => show(drag)
    case _ => show(OptionalArg(a, f).value)
  }

  /**
   * The `data` object of a shot with counter `counter`, arguments `a` (after the repeat
   * branch) and drag `drag`. `show` is Python's `str()` on a number.
   */
  function ShotData(counter: nat, a: ShotArgs, drag: real, show: real -> string): map<Field, string> {
    map f | f in AllFields && Present(a, f) :: FieldValue(counter, a, drag, show, f)
  }

  /** Sets `f` to the shown value when `v` is truthy (`if v: data[f] = str(v)`). */
  function PutIf(m: map<Field, string>, f: Field, v: Option<real>, show: real -> string): map<Field, string> {
    if Truthy(v) then m[f := show(v.value)] else m
  }

  /** The `data` object of the minimal message the call starts from. */
  const Template: map<Field, string> :=
    map[Counter := "0", ShotNumber := "0", BallSpeed := "0.0", BallPath := "0.0",
        LaunchAngle := "0.0", BackSpin := "0", SideSpin := "0"]

  /** The template with the counter and the required arguments filled in. */
  function RequiredPart(counter: nat, a: ShotArgs, show: real -> string): map<Field, string> {
    Template[Counter := Decimal(counter)][ShotNumber := Decimal(counter)][BallSpeed := show(a.ballspeed)]
            [BallPath := show(a.ballpath)][LaunchAngle := show(a.launchangle)][BackSpin := show(a.backspin)]
            [SideSpin := show(a.sidespin)]
  }

  /** The keys in the order the call inserts them. */
  function InsertionOrder(counter: nat, a: ShotArgs, drag: real, show: real -> string): map<Field, string> {
    var m := RequiredPart(counter, a, show);
    var m := PutIf(m, ClubSpeed, a.clubspeed, show);
    var m := PutIf(m, ClubFace, a.clubface, show);
    var m := PutIf(m, ClubPath, a.clubpath, show);
    var m := PutIf(m, SweetSpot, a.sweetspot, show);
    PutIf(m[Drag := show(drag)], Carry, a.carry, show)
  }

  /** What `PutIf` leaves at the key `g`: the shown value at `f` when truthy, the old entry elsewhere. */
  lemma PutIfAt(m: map<Field, string>, f: Field, v: Option<real>, show: real -> string, g: Field)
    ensures g in PutIf(m, f, v, show) <==> g in m || (g == f && Truthy(v))
    ensures g in PutIf(m, f, v, show) && (g != f || !Truthy(v)) ==> PutIf(m, f, v, show)[g] == m[g]
    ensures g == f && Truthy(v) ==> PutIf(m, f, v, show)[g] == show(v.value)
  {
  }

  /** The required part holds every required key but the drag. */
  lemma RequiredPartKeys(counter: nat, a: ShotArgs, show: real -> string, f: Field)
    ensures f in RequiredPart(counter, a, show) <==> !IsOptional(f) && f != Drag
  {
    match f
    case Counter => case ShotNumber => case BallSpeed => case BallPath => case LaunchAngle =>
    case BackSpin => case SideSpin => case ClubSpeed => case ClubFace => case ClubPath =>
    case SweetSpot => case Drag => case Carry =>
  }

  /** ... with the value the `data` object gives it. */
  lemma RequiredPartValues(counter: nat, a: ShotArgs, drag: real, show: real -> string, f: Field)
    requires !IsOptional(f) && f != Drag
    ensures RequiredPart(counter, a, show)[f] == FieldValue(counter, a, drag, show, f)
  {
    match f
    case Counter => case ShotNumber => case BallSpeed => case BallPath => case LaunchAngle =>
    case BackSpin => case SideSpin =>
  }

  /** The `data` object holds exactly the present keys. */
  lemma ShotDataKeys(counter: nat, a: ShotArgs, drag: real, show: real -> string, f: Field)
    ensures f in ShotData(counter, a, drag, show) <==> Present(a, f)
  {
    AllFieldsComplete(f);
  }

  /** The call's map holds the key `f` when it is required or truthy, with the entry of the `data` object. */
  lemma InsertionOrderAt(counter: nat, a: ShotArgs, drag: real, show: real -> string, f: Field)
    ensures f in InsertionOrder(counter, a, drag, show) <==> Present(a, f)
    ensures Present(a, f) ==> InsertionOrder(counter, a, drag, show)[f] == FieldValue(counter, a, drag, show, f)
  {
    var m0 := RequiredPart(counter, a, show);
    var m1 := PutIf(m0, ClubSpeed, a.clubspeed, show);
    var m2 := PutIf(m1, ClubFace, a.clubface, show);
    var m3 := PutIf(m2, ClubPath, a.clubpath, show);
    var m4 := PutIf(m3, SweetSpot, a.sweetspot, show);
    PutIfAt(m0, ClubSpeed, a.clubspeed, show, f);
    PutIfAt(m1, ClubFace, a.clubface, show, f);
    PutIfAt(m2, ClubPath, a.clubpath, show, f);
    PutIfAt(m3, SweetSpot, a.sweetspot, show, f);
    PutIfAt(m4[Drag := show(drag)], Carry, a.carry, show, f);
    RequiredPartKeys(counter, a, show, f);
    if !IsOptional(f) && f != Drag {
      RequiredPartValues(counter, a, drag, show, f);
    }
  }

  /** Filling the keys in one at a time builds exactly the `data` object. */
  lemma InsertionOrderIsShotData(counter: nat, a: ShotArgs, drag: real, show: real -> string)
    ensures InsertionOrder(counter, a, drag, show) == ShotData(counter, a, drag, show)
  {
    var built := InsertionOrder(counter, a, drag, show);
    var spec := ShotData(counter, a, drag, show);
    forall f ensures (f in built <==> f in spec) && (f in built ==> built[f] == spec[f]) {
      InsertionOrderAt(counter, a, drag, show, f);
      ShotDataKeys(counter, a, drag, show, f);
    }
  }

  /** The `data` object as JSON: wire names for keys, every value a string. */
  function WireData(data: map<Field, string>): map<string, Json> {
    NamesDistinct();
    map f | f in data :: Name(f) := JStr(data[f])
  }

  /** The full message: the PROTEE envelope around the `data` object. */
  function ShotMessage(data: map<Field, string>): Json {
    JObj(map["protocol" := JStr("PROTEE"),
             "info" := JObj(map["device" := JStr("EXT"), "units" := JStr("MPH")]),
             "data" := JObj(WireData(data))])
  }

  /** Reads the `data` object of a message back: the string value under each known key. */
  function DataOf(message: Json): Option<map<Field, string>> {
    if message.JObj? && "data" in message.fields && message.fields["data"].JObj? then
      var data := message.fields["data"].fields;
      Some(map f | f in AllFields && Name(f) in data && data[Name(f)].JStr? :: data[Name(f)].s)
    else None
  }

  /** The envelope is fixed: protocol PROTEE, device EXT, units MPH. */
  predicate HasEnvelope(message: Json) {
    && message.JObj?
    && "protocol" in message.fields && message.fields["protocol"] == JStr("PROTEE")
    && "info" in message.fields && message.fields["info"].JObj?
    && "device" in message.fields["info"].fields && message.fields["info"].fields["device"] == JStr("EXT")
    && "units" in message.fields["info"].fields && message.fields["info"].fields["units"] == JStr("MPH")
  }

  /** A key's wire name is in the JSON `data` object exactly when the key is, with its value as a JSON string. */
  lemma WireDataAt(data: map<Field, string>, f: Field)
    ensures Name(f) in WireData(data) <==> f in data
    ensures f in data ==> WireData(data)[Name(f)] == JStr(data[f])
  {
    NamesDistinct();
    if f in data {
      assert Name(f) in WireData(data);
    }
  }

  /** Round trip: the envelope is in place and the `data` object reads back unchanged. */
  lemma MessageRoundTrip(data: map<Field, string>)
    ensures HasEnvelope(ShotMessage(data))
    ensures DataOf(ShotMessage(data)) == Some(data)
  {
    var back := DataOf(ShotMessage(data)).value;
    forall f ensures (f in back <==> f in data) && (f in back ==> back[f] == data[f]) {
      AllFieldsComplete(f);
      WireDataAt(data, f);
    }
    assert back == data;
  }

  /** Every shot carries the required keys: the counter twice, each argument and the drag, as strings. */
  lemma RequiredFieldsPresent(counter: nat, a: ShotArgs, drag: real, show: real -> string)
    ensures var d := ShotData(counter, a, drag, show);
      && RequiredFields <= d.Keys
      && d[Counter] == Decimal(counter) && d[ShotNumber] == Decimal(counter)
      && d[BallSpeed] == show(a.ballspeed) && d[BallPath] == show(a.ballpath)
      && d[LaunchAngle] == show(a.launchangle) && d[BackSpin] == show(a.backspin)
      && d[SideSpin] == show(a.sidespin) && d[Drag] == show(drag)
  {
    var d := ShotData(counter, a, drag, show);
    forall f | f in RequiredFields ensures f in d && d[f] == FieldValue(counter, a, drag, show, f) {
      ShotDataKeys(counter, a, drag, show, f);
    }
  }

  /** An optional key is present exactly when its value is truthy, and then carries that value. */
  lemma OptionalFieldsPresent(counter: nat, a: ShotArgs, drag: real, show: real -> string, f: Field)
    requires IsOptional(f)
    ensures var d := ShotData(counter, a, drag, show);
      && (f in d <==> Truthy(OptionalArg(a, f)))
      && (f in d ==> d[f] == show(OptionalArg(a, f).value))
  {
  }

  /** A shot without optional values carries exactly the required keys. */
  lemma MinimalShot(counter: nat, a: ShotArgs, drag: real, show: real -> string)
    requires a.clubspeed == a.clubface == a.clubpath == a.sweetspot == a.carry == None
    ensures ShotData(counter, a, drag, show).Keys == RequiredFields
  {
    forall f ensures f in ShotData(counter, a, drag, show) <==> f in RequiredFields {
      AllFieldsComplete(f);
    }
  }

  /**
   * A repeat sends the launch angle as clubspeed and clubface; when the launch angle is 0
   * it is falsy, so both keys are left out.
   */
  lemma RepeatEchoesLaunchAngle(counter: nat, a: ShotArgs, drag: real, show: real -> string)
    ensures var d := ShotData(counter, Effective(a, true), drag, show);
      && (ClubSpeed in d <==> a.launchangle != 0.0)
      && (ClubFace in d <==> a.launchangle != 0.0)
      && (a.launchangle != 0.0 ==> d[ClubSpeed] == d[ClubFace] == d[LaunchAngle])
  {
  }

  /** A receiver reading the counter back as a decimal number gets the shot number. */
  lemma CounterReadsBack(counter: nat, a: ShotArgs, drag: real, show: real -> string)
    ensures var c := ShotData(counter, a, drag, show)[Counter];
      && (forall i :: 0 <= i < |c| ==> '0' <= c[i] <= '9')
      && ParseDecimal(c) == counter
  {
    DecimalRoundTrip(counter);
  }

  /** What one call of `launch_ball` does, apart from the counter. */
  datatype LaunchOutcome =
    | Sent(message: Json)  // returned True: the message went to the socket
    | NoSocket             // returned False: no socket to send on
    | SendFailed           // returned False: the send raised an OSError, which was swallowed
    | Raised               // the drag default raised; the exception reaches the caller
  {
    /** The value `launch_ball` returns, or `None` when it raises instead. */
    function Returned(): Option<bool> {
      match this
      case Sent(_) => Some(true)
      case Raised => None
      case _ => Some(false)
    }
  }

  /**
   * The outcome of a call whose (already updated) counter is `counter`, given the current
   * club and configuration, whether a socket exists and whether the send raises.
   */
  function Launch(counter: nat, a: ShotArgs, repeat: bool, club: Json, cfg: Config,
                  hasSocket: bool, sendFails: bool, show: real -> string): LaunchOutcome
  {
    match ResolveDrag(a.drag, club, cfg)
    case None => Raised
    case Some(drag) =>
      if !hasSocket then NoSocket
      else if sendFails then SendFailed
      else Sent(ShotMessage(ShotData(counter, Effective(a, repeat), drag, show)))
  }

  /**
   * `launch_ball` returns True exactly when a socket exists, the send succeeds and the
   * drag default did not raise; it raises only from the drag default, which a caller's
   * own drag or a string club rules out.
   */
  lemma LaunchReturns(counter: nat, a: ShotArgs, repeat: bool, club: Json, cfg: Config,
                      hasSocket: bool, sendFails: bool, show: real -> string)
    ensures var o := Launch(counter, a, repeat, club, cfg, hasSocket, sendFails, show);
      && (o.Returned() == Some(true) <==> hasSocket && !sendFails && o != Raised)
      && (o == Raised <==> a.drag.None? && ClubGroup(club).None?)
      && (a.drag.Some? || club.JStr? ==> o.Returned().Some?)
      && (o.Sent? ==> DataOf(o.message).Some? && HasEnvelope(o.message))
  {
    if club.JStr? {
      StringClubGroup(club.s);
    }
    match ResolveDrag(a.drag, club, cfg)
    case None =>
    case Some(drag) =>
      MessageRoundTrip(ShotData(counter, Effective(a, repeat), drag, show));
  }

  /**
   * Without a drag of the caller's, the message carries the clamped default, which
   * lies in [0, 2]; a drag of the caller's, 0 included, is carried as given.
   */
  lemma LaunchDrag(counter: nat, a: ShotArgs, repeat: bool, club: Json, cfg: Config,
                   show: real -> string)
    requires Launch(counter, a, repeat, club, cfg, true, false, show).Sent?
    ensures var d := DataOf(Launch(counter, a, repeat, club, cfg, true, false, show).message);
      && d.Some? && Drag in d.value
      && (a.drag.Some? ==> d.value[Drag] == show(a.drag.value))
      && (a.drag.None? ==> exists x :: 0.0 <= x <= 2.0 && DefaultDrag(club, cfg) == Some(x) && d.value[Drag] == show(x))
  {
    var drag := ResolveDrag(a.drag, club, cfg).value;
    var data := ShotData(counter, Effective(a, repeat), drag, show);
    MessageRoundTrip(data);
    RequiredFieldsPresent(counter, Effective(a, repeat), drag, show);
  }

  /** The counters carried by a run of calls from `start`, one per call; `repeats` says which calls repeat. */
  function Counters(start: nat, repeats: seq<bool>): (r: seq<nat>)
    ensures |r| == |repeats|
    decreases |repeats|
  {
    if repeats == [] then []
    else [NextCounter(start, repeats[0])] + Counters(NextCounter(start, repeats[0]), repeats[1..])
  }

  /** Each counter of a run is at least the start, and above it from the first non-repeat call on. */
  lemma {:induction false} CountersFrom(start: nat, repeats: seq<bool>, i: nat)
    requires i < |repeats|
    ensures Counters(start, repeats)[i] >= start
    ensures (exists j :: 0 <= j <= i && !repeats[j]) ==> Counters(start, repeats)[i] > start
    decreases |repeats|
  {
    if i > 0 {
      CountersFrom(NextCounter(start, repeats[0]), repeats[1..], i - 1);
      if exists j :: 0 <= j <= i && !repeats[j] {
        var j :| 0 <= j <= i && !repeats[j];
        if j > 0 {
          assert repeats[1..][j - 1] == repeats[j];
        }
      }
    }
  }

  /**
   * Shot numbers never repeat: of two calls in a run, a later non-repeat call carries a
   * larger counter, written as a different string.
   */
  lemma {:induction false} CountersIncrease(start: nat, repeats: seq<bool>, i: nat, j: nat)
    requires i < j < |repeats| && !repeats[j]
    ensures Counters(start, repeats)[i] < Counters(start, repeats)[j]
    ensures Decimal(Counters(start, repeats)[i]) != Decimal(Counters(start, repeats)[j])
    decreases |repeats|
  {
    var next := NextCounter(start, repeats[0]);
    if i == 0 {
      CountersFrom(next, repeats[1..], j - 1);
      assert repeats[1..][j - 1] == repeats[j];
    } else {
      CountersIncrease(next, repeats[1..], i - 1, j - 1);
    }
    DecimalInjective(Counters(start, repeats)[i], Counters(start, repeats)[j]);
  }
}
