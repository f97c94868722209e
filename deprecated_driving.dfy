/** DEPRECATED/DEPRECATED_Autonomous_Driving_Code.py: dead-reckoned driving
    corrected by positions scraped from a web page.

    `update_position` polls the page forever: each response either updates
    the position or is retried, and its `while True` has no exit. `Track`
    is that loop as written, over a finite sequence of responses;
    `MoveAsWritten` and `AsWrittenNeverArrives` show that `move_to_target`
    then never gets past its first statement. The rest of the model uses
    `Settle`, the evidently intended call that returns with the first
    position read, as the later scripts' `update_position` does. `turn_angle` repeats the same spin forever, and the
    model runs it for a number of passes. `math.hypot`/`math.atan2`
    readings of the position enter as parameters. */
module DeprecatedDriving {
  import opened RoverMath
  import opened Motors
  import opened Text
  import opened Vectors

  const TimePer360 := 1.55
  const DegreesPerSecond := 360.0 / TimePer360
  const PositionTolerance := 50.0
  const TimePerFoot := 0.54
  const Speed := 0.75

  const Targets: seq<Point> := [Point(570.0, 260.0), Point(1130.0, 710.0), Point(1120.0, 642.0)]
  const InitialDirection := Point(90.0, 1.0)

  // Coordinate text

  predicate IsDigit(c: char) { '0' <= c <= '9' }

  /** The characters the cleanup keeps. */
  predicate Kept(c: char) { IsDigit(c) || c == '.' || c == ',' }

  /** `''.join(c for c in text if c.isdigit() or c in '.,')` for ASCII
      digits. */
  function Clean(s: string): (r: string)
    ensures |r| <= |s|
    ensures forall i :: 0 <= i < |r| ==> Kept(r[i])
    decreases |s|
  {
    if |s| == 0 then ""
    else (if Kept(s[0]) then [s[0]] else "") + Clean(s[1..])
  }

  /** The cleanup works character by character. */
  lemma {:induction false} CleanConcat(a: string, b: string)
    ensures Clean(a + b) == Clean(a) + Clean(b)
    decreases |a|
  {
    if |a| == 0 {
      assert a + b == b;
    } else {
      assert (a + b)[0] == a[0] && (a + b)[1..] == a[1..] + b;
      CleanConcat(a[1..], b);
      var head := if Kept(a[0]) then [a[0]] else "";
      calc {
        Clean(a + b);
        head + Clean(a[1..] + b);
        head + (Clean(a[1..]) + Clean(b));
        (head + Clean(a[1..])) + Clean(b);
      }
    }
  }

  /** Text with no kept character cleans to nothing. */
  lemma {:induction false} CleanNothingKept(s: string)
    requires forall i :: 0 <= i < |s| ==> !Kept(s[i])
    ensures Clean(s) == ""
    decreases |s|
  {
    if |s| > 0 {
      CleanNothingKept(s[1..]);
    }
  }

  /** Cleaning twice is cleaning once. */
  lemma {:induction false} CleanIdempotent(s: string)
    ensures Clean(Clean(s)) == Clean(s)
    decreases |s|
  {
    if |s| > 0 {
      CleanIdempotent(s[1..]);
      CleanConcat(if Kept(s[0]) then [s[0]] else "", Clean(s[1..]));
    }
  }

  /** A `-` sign anywhere is dropped, so `-12.5` reads as `12.5`. */
  lemma SignDropped(a: string, b: string)
    ensures Clean(a + "-" + b) == Clean(a + b)
  {
    CleanConcat(a + "-", b);
    CleanConcat(a, "-");
    CleanConcat(a, b);
  }

  /** The whitespace `str.strip()` removes, for ASCII text. */
  predicate IsSpace(c: char)
  {
    c == ' ' || c == '\t' || c == '\n' || c == '\r' || c == 11 as char || c == 12 as char
  }

  function StripLeft(s: string): (r: string)
    ensures |r| <= |s| && r == s[|s| - |r|..]
    ensures |r| > 0 ==> !IsSpace(r[0])
    decreases |s|
  {
    if |s| > 0 && IsSpace(s[0]) then StripLeft(s[1..]) else s
  }

  function StripRight(s: string): (r: string)
    ensures |r| <= |s| && r == s[..|r|]
    ensures |r| > 0 ==> !IsSpace(r[|r| - 1])
    decreases |s|
  {
    if |s| > 0 && IsSpace(s[|s| - 1]) then StripRight(s[..|s| - 1]) else s
  }

  /** `s.strip()`. */
  function Strip(s: string): (r: string)
    ensures |r| <= |s|
    ensures |r| > 0 ==> !IsSpace(r[0]) && !IsSpace(r[|r| - 1])
  {
    var l := StripLeft(s);
    var r := StripRight(l);
    assert |r| > 0 ==> r[0] == l[0];
    r
  }

  lemma {:induction false} CleanStripLeft(s: string)
    ensures Clean(StripLeft(s)) == Clean(s)
    decreases |s|
  {
    if |s| > 0 && IsSpace(s[0]) {
      CleanStripLeft(s[1..]);
    }
  }

  lemma {:induction false} CleanStripRight(s: string)
    ensures Clean(StripRight(s)) == Clean(s)
    decreases |s|
  {
    if |s| > 0 && IsSpace(s[|s| - 1]) {
      CleanStripRight(s[..|s| - 1]);
      assert s == s[..|s| - 1] + [s[|s| - 1]];
      CleanConcat(s[..|s| - 1], [s[|s| - 1]]);
    }
  }

  /** Stripping whitespace does not change the cleaned text. */
  lemma CleanStrip(s: string)
    ensures Clean(Strip(s)) == Clean(s)
  {
    CleanStripLeft(s);
    CleanStripRight(StripLeft(s));
  }

  /** Whether `pat` occurs in `s` (`pat in s`). */
  predicate Contains(s: string, pat: string)
    decreases |s|
  {
    |pat| <= |s| && (s[..|pat|] == pat || Contains(s[1..], pat))
  }

  /** `s.replace(pat, '')`, scanning left to right. */
  function RemoveAll(s: string, pat: string): (r: string)
    requires |pat| > 0
    ensures |r| <= |s|
    decreases |s|
  {
    if |pat| <= |s| && s[..|pat|] == pat then RemoveAll(s[|pat|..], pat)
    else if |s| == 0 then ""
    else [s[0]] + RemoveAll(s[1..], pat)
  }

  /** Removing a pattern with no kept character does not change the cleaned
      text. */
  lemma {:induction false} CleanRemoveAll(s: string, pat: string)
    requires |pat| > 0 && forall i :: 0 <= i < |pat| ==> !Kept(pat[i])
    ensures Clean(RemoveAll(s, pat)) == Clean(s)
    decreases |s|
  {
    if |pat| <= |s| && s[..|pat|] == pat {
      CleanRemoveAll(s[|pat|..], pat);
      assert s == pat + s[|pat|..];
      CleanConcat(pat, s[|pat|..]);
      CleanNothingKept(pat);
    } else if |s| > 0 {
      CleanRemoveAll(s[1..], pat);
      assert s == [s[0]] + s[1..];
      CleanConcat([s[0]], s[1..]);
      CleanConcat([s[0]], RemoveAll(s[1..], pat));
    }
  }

  const PositionLabel := "Position:"

  /** The parts of a fetched page the scraper looks at: the text of the
      first `<p>` and of the `div` with id `coords` or `position`. */
  datatype Page = Page(p: Option<string>, div: Option<string>)

  /** The text the coordinates are read from: the paragraph when it holds a
      comma, else the div with a `Position:` label removed, else none. */
  function CoordText(page: Page): (r: Option<string>)
    ensures r.None? <==> (page.p.None? || ',' !in page.p.value) && page.div.None?
  {
    if page.p.Some? && ',' in page.p.value then Some(Strip(page.p.value))
    else if page.div.Some? then Some(DivText(page.div.value))
    else None
  }

  /** The div's text, stripped, with a `Position:` label removed. */
  function DivText(div: string): string
  {
    var text := Strip(div);
    if Contains(text, PositionLabel) then Strip(RemoveAll(text, PositionLabel)) else text
  }

  /** Stripping and removing the label do not change the cleaned text. */
  lemma DivTextCleaned(div: string)
    ensures Clean(DivText(div)) == Clean(div)
  {
    var text := Strip(div);
    CleanStrip(div);
    if Contains(text, PositionLabel) {
      CleanStrip(RemoveAll(text, PositionLabel));
      LabelNothingKept();
      CleanRemoveAll(text, PositionLabel);
    }
  }

  /** The label holds no character the cleanup keeps. */
  lemma LabelNothingKept()
    ensures |PositionLabel| > 0 && forall i :: 0 <= i < |PositionLabel| ==> !Kept(PositionLabel[i])
  {
  }

  /** Stripping and the label removal do not matter after the cleanup: the
      cleaned text is that of the element's own text. */
  lemma CoordTextCleaned(page: Page)
    requires CoordText(page).Some?
    ensures page.p.Some? && ',' in page.p.value ==> Clean(CoordText(page).value) == Clean(page.p.value)
    ensures !(page.p.Some? && ',' in page.p.value) ==> Clean(CoordText(page).value) == Clean(page.div.value)
  {
    if page.p.Some? && ',' in page.p.value {
      CleanStrip(page.p.value);
    } else {
      DivTextCleaned(page.div.value);
    }
  }

  predicate AllDigits(s: string) { forall i :: 0 <= i < |s| ==> IsDigit(s[i]) }

  /** The value of a decimal digit string. */
  function DigitsValue(s: string): (n: nat)
    requires AllDigits(s)
    decreases |s|
  {
    if |s| == 0 then 0 else DigitsValue(s[..|s| - 1]) * 10 + (s[|s| - 1] as int - '0' as int)
  }

  function Pow10(n: nat): (r: nat)
    ensures r >= 1
  {
    if n == 0 then 1 else 10 * Pow10(n - 1)
  }

  /** `float(s)` for a string of digits and dots, which is all a cleaned
      piece can hold: digits with at most one dot and at least one digit,
      read exactly (`None` is the `ValueError`). */
  function ParseFloat(s: string): (r: Option<real>)
    ensures r.Some? ==> r.value >= 0.0 && Count(s, '.') <= 1 && |s| > Count(s, '.')
    ensures AllDigits(s) && |s| > 0 ==> r == Some(DigitsValue(s) as real)
  {
    var parts := Split(s, '.');
    if AllDigits(s) && |s| > 0 then
      Some(DigitsValue(s) as real)
    else if |parts| == 2 && AllDigits(parts[0]) && AllDigits(parts[1]) && |parts[0]| + |parts[1]| > 0 then
      JoinSplit(s, '.');
      assert |s| == |parts[0]| + 1 + |parts[1]|;
      Some(DigitsValue(parts[0]) as real + DigitsValue(parts[1]) as real / Pow10(|parts[1]|) as real)
    else None
  }

  /** The numbers in a coordinate text: the cleaned text split at commas
      must give exactly two pieces, each a number. */
  function ReadCoordinates(text: string): (r: Option<Point>)
    ensures r.Some? ==> Count(Clean(text), ',') == 1
    ensures r.Some? ==> r.value.x >= 0.0 && r.value.y >= 0.0
  {
    var pieces := Split(Clean(text), ',');
    if |pieces| != 2 then None
    else
      match (ParseFloat(pieces[0]), ParseFloat(pieces[1]))
      case (Some(x), Some(y)) => Some(Point(x, y))
      case _ => None
  }

  lemma SplitCoordinatesExample()
    ensures Split("3,4.5", ',') == ["3", "4.5"]
  {
    assert Join(["3", "4.5"], ',') == "3,4.5";
    SplitJoin(["3", "4.5"], ',');
  }

  lemma CleanExample()
    ensures Clean("(-3, 4.5)") == "3,4.5"
  {
  }

  lemma ParseNumberExample()
    ensures ParseFloat("3") == Some(3.0)
    ensures ParseFloat("4.5") == Some(4.5)
  {
    assert Join(["4", "5"], '.') == "4.5";
    SplitJoin(["4", "5"], '.');
    assert DigitsValue("4") == 4 && DigitsValue("5") == 5;
  }

  /** Brackets, spaces and the sign are all ignored. */
  lemma ReadExample()
    ensures ReadCoordinates("(-3, 4.5)") == Some(Point(3.0, 4.5))
  {
    CleanExample();
    SplitCoordinatesExample();
    ParseNumberExample();
  }

  /** A reading without exactly one comma is refused. */
  lemma CommaCountExample()
    ensures ReadCoordinates("12.5") == None
    ensures ReadCoordinates("1,2,3") == None
  {
    assert Clean("12.5") == "12.5";
    assert Clean("1,2,3") == "1,2,3";
  }

  // Polling

  /** One fetch of the page: a request error, or a status and the page. */
  datatype Response = Failed | Reply(status: int, page: Page)

  /** What one pass of the `update_position` loop does with a response.
      Every outcome but `Updated` is retried. */
  datatype Poll = RequestFailed | BadStatus | NotFound | BadFormat | BadNumber | Updated(pos: Point)

  function PollOnce(r: Response): Poll
  {
    match r
    case Failed => RequestFailed
    case Reply(status, page) =>
      if status != 200 then BadStatus
      else match CoordText(page)
        case None => NotFound
        case Some(text) =>
          var pieces := Split(Clean(text), ',');
          if |pieces| != 2 then BadFormat
          else match ReadCoordinates(text)
            case None => BadNumber
            case Some(pos) => Updated(pos)
  }

  /** A response updates the position exactly when it is a 200 reply
      whose coordinate text reads as two numbers, and then to those. */
  lemma PollOnceUpdates(r: Response)
    ensures PollOnce(r).Updated? <==>
      r.Reply? && r.status == 200 && CoordText(r.page).Some? && ReadCoordinates(CoordText(r.page).value).Some?
    ensures PollOnce(r).Updated? ==> PollOnce(r).pos == ReadCoordinates(CoordText(r.page).value).value
  {
  }

  /** The outcomes of polling `responses`, one per response. */
  function Polls(responses: seq<Response>): (r: seq<Poll>)
    ensures |r| == |responses|
    decreases |responses|
  {
    if |responses| == 0 then [] else [PollOnce(responses[0])] + Polls(responses[1..])
  }

  /** Each response is polled on its own, in order. */
  lemma {:induction false} PollsAt(responses: seq<Response>)
    ensures forall k :: 0 <= k < |responses| ==> Polls(responses)[k] == PollOnce(responses[k])
    decreases |responses|
  {
    if |responses| > 0 {
      PollsAt(responses[1..]);
      forall k | 0 < k < |responses|
        ensures Polls(responses)[k] == PollOnce(responses[k])
      {
        assert Polls(responses)[k] == Polls(responses[1..])[k - 1];
        assert responses[1..][k - 1] == responses[k];
      }
    }
  }

  /** The position after one pass. */
  function Next(pos: Point, poll: Poll): Point
  {
    match poll
    case Updated(p) => p
    case _ => pos
  }

  /** The position `update_position` holds after the polls `polls`. */
  function Track(pos: Point, polls: seq<Poll>): Point
    decreases |polls|
  {
    if |polls| == 0 then pos else Track(Next(pos, polls[0]), polls[1..])
  }

  /** Polling one batch and then another is polling both. */
  lemma {:induction false} TrackAppend(pos: Point, a: seq<Poll>, b: seq<Poll>)
    ensures Track(pos, a + b) == Track(Track(pos, a), b)
    decreases |a|
  {
    if |a| == 0 {
      assert a + b == b;
    } else {
      assert (a + b)[0] == a[0] && (a + b)[1..] == a[1..] + b;
      TrackAppend(Next(pos, a[0]), a[1..], b);
    }
  }

  /** The position is that of the last poll that updated it, or the old
      one when none did. */
  lemma {:induction false} TrackIsLastUpdate(pos: Point, polls: seq<Poll>)
    ensures (forall j :: 0 <= j < |polls| ==> !polls[j].Updated?) ==> Track(pos, polls) == pos
    ensures forall j :: (0 <= j < |polls| && polls[j].Updated?
                          && (forall k :: j < k < |polls| ==> !polls[k].Updated?))
                         ==> Track(pos, polls) == polls[j].pos
    decreases |polls|
  {
    if |polls| > 0 {
      var rest := polls[1..];
      TrackIsLastUpdate(Next(pos, polls[0]), rest);
      forall j | 0 <= j < |polls| && polls[j].Updated? && (forall k :: j < k < |polls| ==> !polls[k].Updated?)
        ensures Track(pos, polls) == polls[j].pos
      {
        if j > 0 {
          assert polls[j] == rest[j - 1];
          forall k | j - 1 < k < |rest|
            ensures !rest[k].Updated?
          {
            assert rest[k] == polls[k + 1];
          }
        } else {
          forall k | 0 <= k < |rest|
            ensures !rest[k].Updated?
          {
            assert rest[k] == polls[k + 1];
          }
        }
      }
      if forall j :: 0 <= j < |polls| ==> !polls[j].Updated? {
        assert forall k :: 0 <= k < |rest| ==> rest[k] == polls[k + 1];
      }
    }
  }

  /** Polling responses never yields a negative position: each reading is
      the old position or two non-negative numbers. */
  lemma {:induction false} TrackNonNegative(pos: Point, responses: seq<Response>)
    ensures var t := Track(pos, Polls(responses));
      t == pos || (t.x >= 0.0 && t.y >= 0.0)
    decreases |responses|
  {
    if |responses| > 0 {
      PollOnceUpdates(responses[0]);
      var polls := Polls(responses);
      assert polls[1..] == Polls(responses[1..]);
      TrackNonNegative(Next(pos, polls[0]), responses[1..]);
    }
  }

  /** The index of the first poll that updates the position, or `|polls|`
      when none does. */
  function FirstUpdate(polls: seq<Poll>): (r: nat)
    ensures r <= |polls| && (r < |polls| ==> polls[r].Updated?)
    ensures forall k :: 0 <= k < r ==> !polls[k].Updated?
    decreases |polls|
  {
    if |polls| == 0 || polls[0].Updated? then 0 else 1 + FirstUpdate(polls[1..])
  }

  /** The first update is at `i` when no poll before `i` updates and the
      one at `i` does (or `i` is the end). */
  lemma FirstUpdateAt(polls: seq<Poll>, i: nat)
    requires i <= |polls| && (i < |polls| ==> polls[i].Updated?)
    requires forall k :: 0 <= k < i ==> !polls[k].Updated?
    ensures FirstUpdate(polls) == i
  {
  }

  /** `update_position()` as evidently intended: retry each failed response
      and return with the first position read; `None` while every response
      so far has failed and the call is still retrying. */
  function Settle(polls: seq<Poll>): (r: Option<Point>)
    ensures r.Some? <==> FirstUpdate(polls) < |polls|
  {
    var j := FirstUpdate(polls);
    if j < |polls| then Some(polls[j].pos) else None
  }

  /** The intended call returns exactly when some response updates the
      position, and then with the first such position. */
  lemma SettleIsFirstUpdate(polls: seq<Poll>)
    ensures Settle(polls).None? <==> forall k :: 0 <= k < |polls| ==> !polls[k].Updated?
    ensures Settle(polls).Some? ==>
      exists k :: 0 <= k < |polls| && polls[k] == Updated(Settle(polls).value)
                  && forall j :: 0 <= j < k ==> !polls[j].Updated?
  {
    var j := FirstUpdate(polls);
    if j < |polls| {
      assert polls[j] == Updated(Settle(polls).value);
    }
  }

  /** The intended call returns the position the polling loop as written
      holds just after its first update, and while it is still retrying
      both hold the old position. */
  lemma SettleAgreesWithTrack(pos: Point, polls: seq<Poll>)
    ensures Settle(polls).None? ==> Track(pos, polls) == pos
    ensures Settle(polls).Some? ==> Track(pos, polls[..FirstUpdate(polls) + 1]) == Settle(polls).value
  {
    TrackIsLastUpdate(pos, polls);
    var j := FirstUpdate(polls);
    if j < |polls| {
      var prefix := polls[..j + 1];
      TrackIsLastUpdate(pos, prefix);
      assert prefix[j] == polls[j];
    }
  }

  // Driving

  /** `move_forward`'s throttles: on this rover `(-SPEED, SPEED)` drives
      straight ahead. */
  const ForwardThrottles := Throttles(-Speed, Speed)

  /** `distance_inches * (TIME_PER_FOOT / 12)`. */
  function ForwardTime(distance: real): (r: real)
    ensures distance >= 0.0 ==> r >= 0.0
    ensures distance == 12.0 ==> r == TimePerFoot
  {
    distance * (TimePerFoot / 12.0)
  }

  /** `turn_angle`'s throttles: both wheels the same way, forward for a
      positive angle. */
  function TurnThrottles(angle: real): (r: Throttles)
    ensures r.motor1 == r.motor2 && Abs(r.motor1) == Speed
    ensures r.motor1 > 0.0 <==> angle > 0.0
  {
    if angle > 0.0 then Throttles(Speed, Speed) else Throttles(-Speed, -Speed)
  }

  function TurnTime(angle: real): (r: real)
    ensures r >= 0.0 && (Abs(angle) == 360.0 ==> r == TimePer360)
  {
    Abs(angle) / DegreesPerSecond
  }

  /** `n` copies of a pulse. */
  function Repeat(p: Pulse, n: nat): (r: seq<Pulse>)
    ensures |r| == n && forall i :: 0 <= i < n ==> r[i] == p
  {
    if n == 0 then [] else Repeat(p, n - 1) + [p]
  }

  /** The turn `adjust_heading` asks for: the error wrapped once. */
  function AdjustError(targetAngle: real, heading: real): (r: real)
    ensures Congruent360(r, targetAngle - heading)
  {
    WrapOnce(targetAngle - heading)
  }

  /** For two `atan2` angles the requested turn is at most half a turn. */
  lemma AdjustErrorBounded(targetAngle: real, heading: real)
    requires -180.0 < targetAngle <= 180.0 && -180.0 < heading <= 180.0
    ensures -180.0 <= AdjustError(targetAngle, heading) <= 180.0
  {
  }

  datatype World = World(kit: Kit, pos: Point)

  /** A `move_forward` call: the world it leaves and whether the
      `update_position` it ends with has returned. */
  datatype Step = Step(world: World, settled: bool)

  /** `move_forward(distance)` with the responses its `update_position`
      reads: one drive for the distance's time, then stopped; the
      dead-reckoned position stands until a response updates it. */
  function Forward(w: World, direction: Point, distance: real, polls: seq<Poll>): (r: Step)
    ensures r.world.kit == Kit(Stopped, w.kit.pulses + [Pulse(ForwardThrottles, ForwardTime(distance))])
    ensures r.settled <==> Settle(polls).Some?
    ensures r.world.pos == if r.settled then Settle(polls).value else Add(w.pos, Scale(direction, distance))
  {
    var kit := Kit(Stopped, w.kit.pulses + [Pulse(ForwardThrottles, ForwardTime(distance))]);
    match Settle(polls)
    case None => Step(World(kit, Add(w.pos, Scale(direction, distance))), false)
    case Some(p) => Step(World(kit, p), true)
  }

  /** One pass of `move_to_target`: the responses of its `update_position`,
      the `hypot` distance it reads, and the responses of the
      `move_forward` it may call. */
  datatype MovePass = MovePass(poll: seq<Poll>, distance: real, after: seq<Poll>)

  /** The same pass as the responses the rover fetches. */
  datatype MoveReplies = MoveReplies(poll: seq<Response>, distance: real, after: seq<Response>)

  /** A fetched pass, each response polled. */
  function Classify(pass: MoveReplies): (r: MovePass)
    ensures r.distance == pass.distance && r.poll == Polls(pass.poll) && r.after == Polls(pass.after)
  {
    MovePass(Polls(pass.poll), pass.distance, Polls(pass.after))
  }

  function ClassifyAll(passes: seq<MoveReplies>): (r: seq<MovePass>)
    ensures |r| == |passes| && forall k :: 0 <= k < |r| ==> r[k] == Classify(passes[k])
  {
    seq(|passes|, k requires 0 <= k < |passes| => Classify(passes[k]))
  }

  /** How `move_to_target` stands when the passes run out: at the `break`,
      inside an `update_position` that has not returned, or still looping. */
  datatype Outcome = Reached | StillPolling | OutOfPasses

  datatype MoveEnd = MoveEnd(world: World, outcome: Outcome, at: nat)

  /** `move_to_target(target)` from pass `i` on, with the intended
      `update_position`: stop once the distance is within 50, otherwise
      drive the whole distance and look again. */
  function Move(w: World, direction: Point, passes: seq<MovePass>, i: nat): (r: MoveEnd)
    requires i <= |passes|
    ensures i <= r.at <= |passes| && (r.outcome == OutOfPasses <==> r.at == |passes|)
    ensures r.outcome == Reached ==>
      (Settle(passes[r.at].poll).Some? && passes[r.at].distance <= PositionTolerance
       && r.world == World(Kit(Stopped, r.world.kit.pulses), Settle(passes[r.at].poll).value))
    ensures r.outcome == StillPolling ==>
      (Settle(passes[r.at].poll).None?
       || (passes[r.at].distance > PositionTolerance && Settle(passes[r.at].after).None?))
    decreases |passes| - i
  {
    if i == |passes| then MoveEnd(w, OutOfPasses, i)
    else match Settle(passes[i].poll)
      case None => MoveEnd(w, StillPolling, i)
      case Some(p) =>
        if passes[i].distance <= PositionTolerance then
          MoveEnd(World(Kit(Stopped, w.kit.pulses), p), Reached, i)
        else
          var f := Forward(World(w.kit, p), direction, passes[i].distance, passes[i].after);
          if !f.settled then MoveEnd(f.world, StillPolling, i)
          else Move(f.world, direction, passes, i + 1)
  }

  /** The drives of passes `i` to `j` (exclusive), one pulse each, for
      the time of that pass's distance. */
  function DrivePulses(passes: seq<MovePass>, i: nat, j: nat): (r: seq<Pulse>)
    requires i <= j <= |passes|
    ensures |r| == j - i
    decreases j - i
  {
    if i == j then [] else [Pulse(ForwardThrottles, ForwardTime(passes[i].distance))] + DrivePulses(passes, i + 1, j)
  }

  /** Every pass before the last read a position, was farther than 50 and
      drove once for its whole distance; the last pass drove too only when
      the `update_position` after its drive is still polling, and nothing
      drives after that. */
  lemma MoveDrivesUntilArrival(w: World, direction: Point, passes: seq<MovePass>, i: nat)
    requires i <= |passes|
    ensures var r := Move(w, direction, passes, i);
      (forall j :: i <= j < r.at ==>
        Settle(passes[j].poll).Some? && passes[j].distance > PositionTolerance && Settle(passes[j].after).Some?)
      && (var drove := r.outcome == StillPolling && Settle(passes[r.at].poll).Some?;
          r.world.kit.pulses == w.kit.pulses + DrivePulses(passes, i, if drove then r.at + 1 else r.at))
  {
    MoveDrivesFar(w, direction, passes, i);
    MovePulses(w, direction, passes, i);
  }

  lemma {:induction false} MoveDrivesFar(w: World, direction: Point, passes: seq<MovePass>, i: nat)
    requires i <= |passes|
    ensures var r := Move(w, direction, passes, i);
      forall j :: i <= j < r.at ==>
        Settle(passes[j].poll).Some? && passes[j].distance > PositionTolerance && Settle(passes[j].after).Some?
    decreases |passes| - i
  {
    if i < |passes| && Settle(passes[i].poll).Some? && passes[i].distance > PositionTolerance {
      var f := Forward(World(w.kit, Settle(passes[i].poll).value), direction, passes[i].distance, passes[i].after);
      if f.settled {
        MoveDrivesFar(f.world, direction, passes, i + 1);
        assert Move(w, direction, passes, i) == Move(f.world, direction, passes, i + 1);
      }
    }
  }

  lemma {:induction false} MovePulses(w: World, direction: Point, passes: seq<MovePass>, i: nat)
    requires i <= |passes|
    ensures var r := Move(w, direction, passes, i);
      var drove := r.outcome == StillPolling && Settle(passes[r.at].poll).Some?;
      r.world.kit.pulses == w.kit.pulses + DrivePulses(passes, i, if drove then r.at + 1 else r.at)
    decreases |passes| - i
  {
    if i == |passes| || Settle(passes[i].poll).None? || passes[i].distance <= PositionTolerance {
      assert w.kit.pulses + [] == w.kit.pulses;
    } else {
      var p := Settle(passes[i].poll).value;
      var f := Forward(World(w.kit, p), direction, passes[i].distance, passes[i].after);
      var drive := Pulse(ForwardThrottles, ForwardTime(passes[i].distance));
      if !f.settled {
        assert DrivePulses(passes, i, i + 1) == [drive] + [];
      } else {
        MovePulses(f.world, direction, passes, i + 1);
        var r := Move(f.world, direction, passes, i + 1);
        assert Move(w, direction, passes, i) == r;
        var drove := r.outcome == StillPolling && Settle(passes[r.at].poll).Some?;
        var end := if drove then r.at + 1 else r.at;
        assert r.world.kit.pulses == (w.kit.pulses + [drive]) + DrivePulses(passes, i + 1, end);
        assert DrivePulses(passes, i, end) == [drive] + DrivePulses(passes, i + 1, end);
      }
    }
  }

  /** Each pass that drove did so for the time of its own distance. */
  lemma {:induction false} DrivePulsesAt(passes: seq<MovePass>, i: nat, j: nat)
    requires i <= j <= |passes|
    ensures forall k :: i <= k < j ==>
      DrivePulses(passes, i, j)[k - i] == Pulse(ForwardThrottles, ForwardTime(passes[k].distance))
    decreases j - i
  {
    if i < j {
      DrivePulsesAt(passes, i + 1, j);
      var rest := DrivePulses(passes, i + 1, j);
      assert DrivePulses(passes, i, j) == [Pulse(ForwardThrottles, ForwardTime(passes[i].distance))] + rest;
      forall k | i <= k < j
        ensures DrivePulses(passes, i, j)[k - i] == Pulse(ForwardThrottles, ForwardTime(passes[k].distance))
      {
        if k > i {
          assert DrivePulses(passes, i, j)[k - i] == rest[k - (i + 1)];
        }
      }
    }
  }

  /** When the distance a pass reads is the true `hypot` from the position
      its `update_position` returned, the pass ends the loop exactly when
      the rover is within 50 of the target. */
  lemma ArrivesWhenWithinTolerance(w: World, direction: Point, target: Point, passes: seq<MovePass>, i: nat)
    requires i < |passes| && Settle(passes[i].poll).Some?
    requires var p := Settle(passes[i].poll).value;
      IsHypot(passes[i].distance, target.x - p.x, target.y - p.y)
    ensures var p := Settle(passes[i].poll).value;
      var r := Move(w, direction, passes, i);
      (r.outcome == Reached && r.at == i) <==> DistSq(target.x - p.x, target.y - p.y) <= PositionTolerance * PositionTolerance
  {
    MoveStopsAt(w, direction, passes, i);
    var p := Settle(passes[i].poll).value;
    HypotCompare(passes[i].distance, target.x - p.x, target.y - p.y, PositionTolerance);
  }

  /** A pass ends the loop exactly when its `update_position` returns and
      the distance it reads is within 50. */
  lemma MoveStopsAt(w: World, direction: Point, passes: seq<MovePass>, i: nat)
    requires i < |passes|
    ensures var r := Move(w, direction, passes, i);
      (r.outcome == Reached && r.at == i) <==>
        (Settle(passes[i].poll).Some? && passes[i].distance <= PositionTolerance)
  {
    if Settle(passes[i].poll).Some? && passes[i].distance > PositionTolerance {
      var p := Settle(passes[i].poll).value;
      var f := Forward(World(w.kit, p), direction, passes[i].distance, passes[i].after);
      if f.settled {
        var r := Move(f.world, direction, passes, i + 1);
        assert Move(w, direction, passes, i) == r;
        assert r.at >= i + 1;
      }
    }
  }

  /** `move_to_target(target)` as written: its first statement is an
      `update_position` that never returns, so whatever responses the page
      gives it is still polling in its first pass, with the motors never
      set. A loop that never ends has no final state to compute, so this
      member is that constant outcome, and its ensures can only restate it. */
  function MoveAsWritten(w: World, polls: seq<Poll>): (r: MoveEnd)
    ensures r.outcome == StillPolling && r.at == 0 && r.world.kit == w.kit
  {
    MoveEnd(World(w.kit, Track(w.pos, polls)), StillPolling, 0)
  }

  /** A page that places the rover on the first target: the intended call
      stops there, the call as written never leaves `update_position`. */
  lemma AsWrittenNeverArrives()
    ensures var w := World(Kit(Stopped, []), Point(0.0, 0.0));
      var polls := [Updated(Targets[0])];
      Move(w, InitialDirection, [MovePass(polls, 0.0, [])], 0).outcome == Reached
      && MoveAsWritten(w, polls).outcome == StillPolling
  {
    var polls := [Updated(Targets[0])];
    assert FirstUpdate(polls) == 0;
  }

  class Rover {
    const kit: MotorKit
    var currentPos: Point
    var currentDirection: Point

    constructor(kit: MotorKit)
      ensures this.kit == kit && currentPos == Point(0.0, 0.0) && currentDirection == InitialDirection
    {
      this.kit := kit;
      currentPos := Point(0.0, 0.0);
      currentDirection := InitialDirection;
    }

    function Snapshot(): World
      reads this, kit
    {
      World(kit.Snapshot(), currentPos)
    }

    /** `update_position()` as evidently intended: retry each failed
        response and return once one updates the position. `updated` is
        false when every response failed and the call is still retrying. */
    method UpdatePosition(responses: seq<Response>) returns (updated: bool)
      modifies this`currentPos
      ensures Settle(Polls(responses)) == if updated then Some(currentPos) else None
      ensures !updated ==> currentPos == old(currentPos)
    {
      var polls := Polls(responses);
      var i := 0;
      while i < |polls|
        invariant i <= |polls| == |responses| && currentPos == old(currentPos)
        invariant FirstUpdate(polls) >= i
        decreases |polls| - i
      {
        if polls[i].Updated? {
          currentPos := polls[i].pos;
          return true;
        }
        i := i + 1;
      }
      return false;
    }

    /** `move_forward(distance_inches)`; `settled` is whether its
        `update_position` returned. */
    method MoveForward(distance: real, responses: seq<Response>) returns (settled: bool)
      modifies kit, this`currentPos
      ensures Step(Snapshot(), settled) == Forward(old(Snapshot()), currentDirection, distance, Polls(responses))
    {
      ghost var before := Snapshot();
      var timeToMove := distance * (TimePerFoot / 12.0);
      kit.Set(Throttles(-Speed, Speed));
      kit.Sleep(timeToMove);
      kit.Stop();
      ghost var driven := Kit(Stopped, before.kit.pulses + [Pulse(ForwardThrottles, ForwardTime(distance))]);
      assert kit.Snapshot() == driven;
      var displacement := Scale(currentDirection, distance);
      currentPos := Add(currentPos, displacement);
      settled := UpdatePosition(responses);
      ghost var f := Forward(before, currentDirection, distance, Polls(responses));
      assert f.world.kit == driven == kit.Snapshot();
      assert f.settled == settled && f.world.pos == currentPos;
    }

    /** `turn_angle(angle_degrees)` for `passes` passes of its endless
        loop: the same spin every pass. The direction it rotates is not
        part of the model, as no code runs after this loop. */
    method TurnAngle(angle: real, passes: nat)
      modifies kit
      ensures kit.pulses == old(kit.pulses) + Repeat(Pulse(TurnThrottles(angle), TurnTime(angle)), passes)
      ensures passes > 0 ==> kit.Current() == Stopped
      ensures passes == 0 ==> kit.Current() == old(kit.Current())
    {
      var n := 0;
      while n < passes
        invariant n <= passes
        invariant kit.pulses == old(kit.pulses) + Repeat(Pulse(TurnThrottles(angle), TurnTime(angle)), n)
        invariant n > 0 ==> kit.Current() == Stopped
        invariant n == 0 ==> kit.Current() == old(kit.Current())
        decreases passes - n
      {
        var turnTime := Abs(angle) / DegreesPerSecond;
        if angle > 0.0 {
          kit.Set(Throttles(Speed, Speed));
        } else {
          kit.Set(Throttles(-Speed, -Speed));
        }
        kit.Sleep(turnTime);
        kit.Stop();
        n := n + 1;
      }
    }

    /** `adjust_heading(target_angle)`; `heading` is the `atan2` angle of
        the current direction. It ends in `turn_angle`, so the turns are
        all of the same wrapped error. */
    method AdjustHeading(targetAngle: real, heading: real, passes: nat)
      modifies kit
      ensures kit.pulses == old(kit.pulses)
        + Repeat(Pulse(TurnThrottles(AdjustError(targetAngle, heading)), TurnTime(AdjustError(targetAngle, heading))), passes)
    {
      var angleError := targetAngle - heading;
      if angleError > 180.0 {
        angleError := angleError - 360.0;
      } else if angleError < -180.0 {
        angleError := angleError + 360.0;
      }
      TurnAngle(angleError, passes);
    }

    /** `move_to_target(target)` over its passes, with the intended
        `update_position`. */
    method MoveToTarget(passes: seq<MoveReplies>) returns (outcome: Outcome, at: nat)
      modifies kit, this`currentPos
      ensures var r := Move(old(Snapshot()), currentDirection, ClassifyAll(passes), 0);
        Snapshot() == r.world && outcome == r.outcome && at == r.at
    {
      ghost var goal := Move(Snapshot(), currentDirection, ClassifyAll(passes), 0);
      var i := 0;
      while i < |passes|
        invariant i <= |passes| && Move(Snapshot(), currentDirection, ClassifyAll(passes), i) == goal
        decreases |passes| - i
      {
        var updated := UpdatePosition(passes[i].poll);
        if !updated {
          return StillPolling, i;
        }
        var distance := passes[i].distance;
        if distance <= PositionTolerance {
          kit.Stop();
          return Reached, i;
        }
        var settled := MoveForward(distance, passes[i].after);
        if !settled {
          return StillPolling, i;
        }
        i := i + 1;
      }
      return OutOfPasses, i;
    }
  }
}
