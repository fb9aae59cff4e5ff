/** The road class behind the Highway regime: a verdict held through map dropouts for at most 90 s. */
module RoadVerdict {
  const REFRESH_FRAMES: nat := 20
  const HOLD_FRAMES: nat := 1800

  /** One read of the map parameters; `Unreadable` stands for a missing or malformed key. */
  datatype MapRead = MapRead(context: string, oneWay: bool, lanes: int) | Unreadable

  datatype Reading = Qualifying | City | Unknown

  function Classify(m: MapRead): Reading {
    if m.Unreadable? then Unknown
    else if m.context == "freeway" || (m.oneWay && m.lanes >= 2) then Qualifying
    else if m.context == "city" then City
    else Unknown
  }

  datatype Road = Road(relaxed: bool, hold: nat)

  const INITIAL := Road(false, HOLD_FRAMES)

  function Refresh(road: Road, r: Reading): Road {
    match r
    case Qualifying => Road(true, 0)
    case City => Road(false, 0)
    case Unknown =>
      var hold := road.hold + REFRESH_FRAMES;
      Road(road.relaxed && hold < HOLD_FRAMES, hold)
  }

  function RefreshAll(readings: seq<Reading>): Road
    decreases |readings|
  {
    if readings == [] then INITIAL
    else Refresh(RefreshAll(readings[..|readings| - 1]), readings[|readings| - 1])
  }

  /** The unknown readings since the last definite one. */
  function UnknownTail(readings: seq<Reading>): nat
    decreases |readings|
  {
    if readings == [] || !readings[|readings| - 1].Unknown? then 0 else 1 + UnknownTail(readings[..|readings| - 1])
  }

  function LastDefinite(readings: seq<Reading>): Reading
    decreases |readings|
  {
    if readings == [] then Unknown
    else if !readings[|readings| - 1].Unknown? then readings[|readings| - 1]
    else LastDefinite(readings[..|readings| - 1])
  }

  /** The road counts as relaxed iff its last definite reading qualified and fewer than 90 unknown ones followed. */
  lemma {:induction false} VerdictHeldIff(readings: seq<Reading>)
    ensures RefreshAll(readings).relaxed <==> LastDefinite(readings) == Qualifying && UnknownTail(readings) < 90
    ensures LastDefinite(readings) != Unknown ==> RefreshAll(readings).hold == UnknownTail(readings) * REFRESH_FRAMES
    decreases |readings|
  {
    if readings != [] {
      VerdictHeldIff(readings[..|readings| - 1]);
    }
  }

  // ----- frame by frame -----

  /** What the selector and the map say in one frame; `highway` is set while a JSON highway tier is in force. */
  datatype Frame = Frame(mode: int, map_: MapRead)

  /** The road is read only for the modes that need it. */
  predicate Reads(f: Frame, highway: bool) {
    f.mode == 1 || highway
  }

  /** One frame of the refresh counter and the road. */
  function NextRoad(cnt: nat, road: Road, f: Frame, highway: bool): (nat, Road) {
    if cnt + 1 < REFRESH_FRAMES then (cnt + 1, road)
    else (0, if Reads(f, highway) then Refresh(road, Classify(f.map_)) else road)
  }

  /** The refresh counter and the road after some frames; the first frame refreshes. */
  function DriveRoad(frames: seq<Frame>, highway: bool): (nat, Road)
    decreases |frames|
  {
    if frames == [] then (REFRESH_FRAMES, INITIAL)
    else
      var (cnt, road) := DriveRoad(frames[..|frames| - 1], highway);
      NextRoad(cnt, road, frames[|frames| - 1], highway)
  }

  /** The selector in force after some frames; `initial` is what was read at the start of the process. */
  function DriveMode(frames: seq<Frame>, initial: int): int
    decreases |frames|
  {
    if frames == [] then initial
    else
      var front := frames[..|frames| - 1];
      if DriveRoad(front, false).0 + 1 < REFRESH_FRAMES then DriveMode(front, initial) else frames[|frames| - 1].mode
  }

  /** The readings taken: in every 20th frame from the first on, if the mode needs the road then. */
  function Taken(frames: seq<Frame>, highway: bool): seq<Reading>
    decreases |frames|
  {
    if frames == [] then []
    else
      var n := |frames| - 1;
      Taken(frames[..n], highway)
        + if n % 20 == 0 && (frames[n].mode == 1 || highway) then [Classify(frames[n].map_)] else []
  }

  /** A freeway qualifies, and so does any one-way road of two lanes or more; other city streets count as city. */
  lemma ReadingIff(m: MapRead)
    ensures Classify(m) == Qualifying <==> m.MapRead? && (m.context == "freeway" || (m.oneWay && m.lanes >= 2))
    ensures Classify(m) == City <==> m.MapRead? && m.context == "city" && !(m.oneWay && m.lanes >= 2)
  {
    assert |"city"| != |"freeway"|;
  }

  lemma RefreshAppend(readings: seq<Reading>, r: Reading)
    ensures RefreshAll(readings + [r]) == Refresh(RefreshAll(readings), r)
  {
    assert (readings + [r])[..|readings|] == readings;
  }

  lemma {:induction false} RefreshCount(frames: seq<Frame>, highway: bool)
    ensures DriveRoad(frames, highway).0 == CountAfter(|frames|)
    decreases |frames|
  {
    if frames != [] {
      RefreshCount(frames[..|frames| - 1], highway);
      CountStep(|frames| - 1);
    }
  }

  function CountAfter(n: nat): nat {
    if n == 0 then REFRESH_FRAMES else (n - 1) % REFRESH_FRAMES
  }

  lemma CountStep(n: nat)
    ensures CountAfter(n) + 1 >= REFRESH_FRAMES <==> n % REFRESH_FRAMES == 0
    ensures CountAfter(n + 1) == if CountAfter(n) + 1 < REFRESH_FRAMES then CountAfter(n) + 1 else 0
  {
  }

  /** The selector in force is the one read in the last 20th frame, counted from the first. */
  lemma {:induction false} ModeAtRefresh(frames: seq<Frame>, initial: int)
    requires frames != []
    ensures var n := |frames| - 1; DriveMode(frames, initial) == frames[n - n % 20].mode
    decreases |frames|
  {
    var n := |frames| - 1;
    RefreshCount(frames[..n], false);
    CountStep(n);
    if n % 20 != 0 {
      ModeAtRefresh(frames[..n], initial);
      assert n - 1 - (n - 1) % 20 == n - n % 20;
    }
  }

  lemma TakenStep(readings: seq<Reading>, cnt: nat, f: Frame, highway: bool, takes: bool)
    requires takes <==> cnt + 1 >= REFRESH_FRAMES
    ensures NextRoad(cnt, RefreshAll(readings), f, highway).1
         == RefreshAll(readings + if takes && Reads(f, highway) then [Classify(f.map_)] else [])
  {
    RefreshAppend(readings, Classify(f.map_));
    assert readings + [] == readings;
  }

  lemma {:induction false} DriveIsTaken(frames: seq<Frame>, highway: bool)
    ensures DriveRoad(frames, highway).1 == RefreshAll(Taken(frames, highway))
    decreases |frames|
  {
    if frames != [] {
      var n := |frames| - 1;
      DriveIsTaken(frames[..n], highway);
      RefreshCount(frames[..n], highway);
      CountStep(n);
      TakenStep(Taken(frames[..n], highway), DriveRoad(frames[..n], highway).0, frames[n], highway, n % REFRESH_FRAMES == 0);
    }
  }

  /**
   After any frames the road counts as relaxed exactly if the last definite reading taken qualified and fewer
   than 90 unknown ones were taken after it: time in modes that take no reading ends no verdict.
   */
  lemma RoadHeldIff(frames: seq<Frame>, highway: bool)
    ensures DriveRoad(frames, highway).1.relaxed
       <==> LastDefinite(Taken(frames, highway)) == Qualifying && UnknownTail(Taken(frames, highway)) < 90
  {
    DriveIsTaken(frames, highway);
    VerdictHeldIff(Taken(frames, highway));
  }

  /** A verdict outlives any time spent in another mode, up to the next reading. */
  lemma {:induction false} RoadKeptElsewhere(frames: seq<Frame>, away: seq<Frame>, highway: bool)
    requires forall f :: f in away ==> !Reads(f, highway)
    ensures DriveRoad(frames + away, highway).1 == DriveRoad(frames, highway).1
    decreases |away|
  {
    if away == [] {
      assert frames + away == frames;
    } else {
      var n := |away| - 1;
      RoadKeptElsewhere(frames, away[..n], highway);
      assert (frames + away)[..|frames + away| - 1] == frames + away[..n];
    }
  }
}
