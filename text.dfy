/** Python's `str.split(sep)` for a one-character separator and its inverse
    `sep.join(parts)`, and the target-list parser of the simulators. */
module Text {
  import opened RoverMath

  function Count(s: string, c: char): (n: nat)
    ensures n <= |s|
    ensures n == 0 <==> c !in s
  {
    if |s| == 0 then 0 else (if s[0] == c then 1 else 0) + Count(s[1..], c)
  }

  /** `s.split(sep)`: the pieces between separators, one more piece than there
      are separators, none containing the separator (`"".split(";") == [""]`). */
  function Split(s: string, sep: char): (r: seq<string>)
    ensures |r| == Count(s, sep) + 1
    ensures forall i :: 0 <= i < |r| ==> sep !in r[i]
    decreases |s|
  {
    if |s| == 0 then [""]
    else
      var rest := Split(s[1..], sep);
      if s[0] == sep then [""] + rest
      else [[s[0]] + rest[0]] + rest[1..]
  }

  /** `sep.join(parts)`. */
  function Join(parts: seq<string>, sep: char): string
  {
    if |parts| == 0 then ""
    else if |parts| == 1 then parts[0]
    else parts[0] + [sep] + Join(parts[1..], sep)
  }

  /** Joining the pieces back with the separator gives the original text. */
  lemma {:induction false} JoinSplit(s: string, sep: char)
    ensures Join(Split(s, sep), sep) == s
    decreases |s|
  {
    if |s| > 0 {
      var rest := Split(s[1..], sep);
      JoinSplit(s[1..], sep);
      if s[0] == sep {
        JoinSeparatorFirst(rest, sep);
      } else {
        JoinExtendFirst(s[0], rest, sep);
      }
      assert [s[0]] + s[1..] == s;
    }
  }

  /** An empty first piece joins to a leading separator. */
  lemma JoinSeparatorFirst(parts: seq<string>, sep: char)
    requires |parts| >= 1
    ensures Join([""] + parts, sep) == [sep] + Join(parts, sep)
  {
    var q := [""] + parts;
    assert q[1..] == parts;
    assert "" + [sep] == [sep];
  }

  /** A character put in front of the first piece is put in front of the
      join. */
  lemma JoinExtendFirst(c: char, parts: seq<string>, sep: char)
    requires |parts| >= 1
    ensures Join([[c] + parts[0]] + parts[1..], sep) == [c] + Join(parts, sep)
  {
    var q := [[c] + parts[0]] + parts[1..];
    assert q[0] == [c] + parts[0];
    if |parts| > 1 {
      assert q[1..] == parts[1..];
    }
  }

  /** A prefix without separators extends the first piece. */
  lemma {:induction false} SplitPrefix(p: string, t: string, sep: char)
    requires sep !in p
    ensures Split(p + t, sep) == [p + Split(t, sep)[0]] + Split(t, sep)[1..]
    decreases |p|
  {
    var r := Split(t, sep);
    if |p| > 0 {
      var q := p[1..] + t;
      SplitPrefix(p[1..], t, sep);
      var rq := Split(q, sep);
      assert rq[0] == p[1..] + r[0] && rq[1..] == r[1..];
      SplitCons(p[0], q, sep);
      ConsTail(p, t);
      ConsTail(p, r[0]);
    } else {
      assert p + t == t;
      assert p + r[0] == r[0];
      assert [r[0]] + r[1..] == r;
    }
  }

  lemma ConsTail(p: string, u: string)
    requires |p| > 0
    ensures [p[0]] + (p[1..] + u) == p + u
  {
    assert p == [p[0]] + p[1..];
  }

  /** A leading non-separator joins the first piece. */
  lemma SplitCons(c: char, t: string, sep: char)
    requires c != sep
    ensures Split([c] + t, sep) == [[c] + Split(t, sep)[0]] + Split(t, sep)[1..]
  {
    assert ([c] + t)[1..] == t;
  }

  /** Splitting the join of separator-free pieces gives the pieces back. */
  lemma {:induction false} SplitJoin(parts: seq<string>, sep: char)
    requires |parts| >= 1
    requires forall i :: 0 <= i < |parts| ==> sep !in parts[i]
    ensures Split(Join(parts, sep), sep) == parts
    decreases |parts|
  {
    var p := parts[0];
    if |parts| == 1 {
      SplitPrefix(p, "", sep);
      assert p + "" == p;
    } else {
      SplitJoin(parts[1..], sep);
      SplitJoinStep(p, parts[1..], sep);
      assert parts == [p] + parts[1..];
    }
  }

  /** One more separator-free piece in front of a join that splits back. */
  lemma SplitJoinStep(p: string, rest: seq<string>, sep: char)
    requires sep !in p && |rest| >= 1 && Split(Join(rest, sep), sep) == rest
    ensures Split(Join([p] + rest, sep), sep) == [p] + rest
  {
    var j := Join(rest, sep);
    assert ([p] + rest)[1..] == rest;
    assert Join([p] + rest, sep) == p + ([sep] + j);
    SplitPrefix(p, [sep] + j, sep);
    assert ([sep] + j)[1..] == j;
    assert Split([sep] + j, sep) == [""] + rest;
    assert p + "" == p;
  }

  /** `[pair.split(',') for pair in text.split(';')]`, the fields of
      `update_targets` before each is converted with `float()`: one target per
      `;`-separated segment, each segment's fields split on `,`. */
  function ParseTargets(text: string): (targets: seq<seq<string>>)
    ensures |targets| == Count(text, ';') + 1
    ensures forall i :: 0 <= i < |targets| ==> |targets[i]| >= 1
  {
    var segments := Split(text, ';');
    seq(|segments|, i requires 0 <= i < |segments| => Split(segments[i], ','))
  }

  /** The inverse of `ParseTargets`: `';'.join(','.join(t) for t in targets)`. */
  function FormatTargets(targets: seq<seq<string>>): string
  {
    Join(seq(|targets|, i requires 0 <= i < |targets| => Join(targets[i], ',')), ';')
  }

  /** Writing the parsed targets back as `x,y;x,y` text reproduces the input. */
  lemma ParseTargetsRoundTrip(text: string)
    ensures FormatTargets(ParseTargets(text)) == text
  {
    var segments := Split(text, ';');
    var targets := ParseTargets(text);
    var rejoined := seq(|targets|, i requires 0 <= i < |targets| => Join(targets[i], ','));
    forall i | 0 <= i < |segments|
      ensures rejoined[i] == segments[i]
    {
      JoinSplit(segments[i], ',');
    }
    assert rejoined == segments;
    JoinSplit(text, ';');
  }

  /** Parsing formatted targets gives them back, provided there is at least
      one target, each has a field, and no field holds a separator. */
  lemma FormatTargetsRoundTrip(targets: seq<seq<string>>)
    requires |targets| >= 1
    requires forall i :: 0 <= i < |targets| ==> |targets[i]| >= 1
    requires forall i, j :: 0 <= i < |targets| && 0 <= j < |targets[i]| ==>
               ',' !in targets[i][j] && ';' !in targets[i][j]
    ensures ParseTargets(FormatTargets(targets)) == targets
  {
    var rejoined := seq(|targets|, i requires 0 <= i < |targets| => Join(targets[i], ','));
    forall i | 0 <= i < |targets|
      ensures ';' !in rejoined[i] && Split(rejoined[i], ',') == targets[i]
    {
      JoinFree(targets[i], ',', ';');
      SplitJoin(targets[i], ',');
    }
    SplitJoin(rejoined, ';');
  }

  /** A character that is in no part and is not the separator is not in the join. */
  lemma {:induction false} JoinFree(parts: seq<string>, sep: char, c: char)
    requires c != sep
    requires forall i :: 0 <= i < |parts| ==> c !in parts[i]
    ensures c !in Join(parts, sep)
    decreases |parts|
  {
    if |parts| > 1 {
      JoinFree(parts[1..], sep, c);
    }
  }

  // `update_targets`: the split fields converted with `float()`

  /** `tuple(map(float, fields))`, with `float()` as the parameter
      `toFloat`, None where it raises `ValueError`: every field converted,
      or None when one of them fails. */
  function ConvertFields(fields: seq<string>, toFloat: string -> Option<real>): (r: Option<seq<real>>)
    ensures r.Some? <==> forall j :: 0 <= j < |fields| ==> toFloat(fields[j]).Some?
    ensures r.Some? ==> |r.value| == |fields| && forall j :: 0 <= j < |fields| ==> r.value[j] == toFloat(fields[j]).value
    decreases |fields|
  {
    if |fields| == 0 then Some([])
    else
      var rest := ConvertFields(fields[1..], toFloat);
      assert forall j :: 1 <= j < |fields| ==> fields[j] == fields[1..][j - 1];
      match toFloat(fields[0])
      case None => None
      case Some(x) =>
        if rest.None? then None else Some([x] + rest.value)
  }

  /** The list comprehension of `update_targets`: every target converted, or
      None when any field of any target fails. */
  function ConvertTargets(pieces: seq<seq<string>>, toFloat: string -> Option<real>): (r: Option<seq<seq<real>>>)
    ensures r.Some? <==> forall i :: 0 <= i < |pieces| ==> ConvertFields(pieces[i], toFloat).Some?
    ensures r.Some? ==> (|r.value| == |pieces|
      && forall i :: 0 <= i < |pieces| ==> r.value[i] == ConvertFields(pieces[i], toFloat).value)
    decreases |pieces|
  {
    if |pieces| == 0 then Some([])
    else
      var rest := ConvertTargets(pieces[1..], toFloat);
      assert forall i :: 1 <= i < |pieces| ==> pieces[i] == pieces[1..][i - 1];
      match ConvertFields(pieces[0], toFloat)
      case None => None
      case Some(t) =>
        if rest.None? then None else Some([t] + rest.value)
  }

  /** `target_x, target_y = zip(*targets)` succeeds exactly when the
      shortest target has two fields: `zip` stops at the shortest. */
  predicate Unzips(targets: seq<seq<real>>)
  {
    (forall i :: 0 <= i < |targets| ==> |targets[i]| >= 2)
    && (exists i :: 0 <= i < |targets| && |targets[i]| == 2)
  }

  /** What `update_targets(text)` leaves behind: the new `targets` and
      whether the call raised. */
  datatype TargetsUpdate = TargetsUpdate(targets: seq<seq<real>>, raised: bool)

  /** `update_targets(text)` with `targets` at `current`. A field that
      `float()` refuses raises before the assignment, so the old targets
      stay. Otherwise the converted targets are stored, and the `zip`
      unpacking that follows raises unless the shortest target has exactly
      two fields. */
  function UpdateTargets(current: seq<seq<real>>, text: string, toFloat: string -> Option<real>): (r: TargetsUpdate)
    ensures (exists i, j :: 0 <= i < |ParseTargets(text)| && 0 <= j < |ParseTargets(text)[i]|
               && toFloat(ParseTargets(text)[i][j]).None?) ==> r == TargetsUpdate(current, true)
    ensures !r.raised ==> (Unzips(r.targets) && |r.targets| == Count(text, ';') + 1
      && forall i, j :: 0 <= i < |r.targets| && 0 <= j < |r.targets[i]| ==>
           j < |ParseTargets(text)[i]| && Some(r.targets[i][j]) == toFloat(ParseTargets(text)[i][j]))
    ensures (forall i, j :: 0 <= i < |ParseTargets(text)| && 0 <= j < |ParseTargets(text)[i]| ==>
               toFloat(ParseTargets(text)[i][j]).Some?) ==>
      (|r.targets| == |ParseTargets(text)|
       && (forall i :: 0 <= i < |r.targets| ==>
             |r.targets[i]| == |ParseTargets(text)[i]|
             && forall j :: 0 <= j < |r.targets[i]| ==> Some(r.targets[i][j]) == toFloat(ParseTargets(text)[i][j]))
       && (r.raised <==> !Unzips(r.targets)))
    ensures r.targets != current ==> (r.raised <==> !Unzips(r.targets))
  {
    var converted := ConvertTargets(ParseTargets(text), toFloat);
    if converted.None? then TargetsUpdate(current, true)
    else TargetsUpdate(converted.value, !Unzips(converted.value))
  }

  /** Writing numeric targets out as `x,y;x,y` text with a formatter that
      `float()` reads back exactly, and submitting that text, stores exactly
      those targets and raises nothing. */
  lemma UpdateTargetsRoundTrip(current: seq<seq<real>>, targets: seq<seq<real>>,
                               show: real -> string, toFloat: string -> Option<real>)
    requires |targets| >= 1 && forall i :: 0 <= i < |targets| ==> |targets[i]| == 2
    requires forall i, j :: 0 <= i < |targets| && 0 <= j < |targets[i]| ==>
      ',' !in show(targets[i][j]) && ';' !in show(targets[i][j]) && toFloat(show(targets[i][j])) == Some(targets[i][j])
    ensures UpdateTargets(current, FormatTargets(ShowTargets(targets, show)), toFloat) == TargetsUpdate(targets, false)
  {
    var texts := ShowTargets(targets, show);
    FormatTargetsRoundTrip(texts);
    var converted := ConvertTargets(texts, toFloat);
    forall i | 0 <= i < |texts|
      ensures ConvertFields(texts[i], toFloat) == Some(targets[i])
    {
      assert ConvertFields(texts[i], toFloat).Some?;
      assert ConvertFields(texts[i], toFloat).value == targets[i];
    }
    assert converted.Some?;
    assert converted.value == targets;
    assert |targets[0]| == 2;
  }

  /** Each field of each target written out with `show`. */
  function ShowTargets(targets: seq<seq<real>>, show: real -> string): (r: seq<seq<string>>)
    ensures |r| == |targets| && forall i :: 0 <= i < |r| ==> (|r[i]| == |targets[i]|
      && forall j :: 0 <= j < |r[i]| ==> r[i][j] == show(targets[i][j]))
  {
    seq(|targets|, i requires 0 <= i < |targets| =>
      seq(|targets[i]|, j requires 0 <= j < |targets[i]| => show(targets[i][j])))
  }
}
