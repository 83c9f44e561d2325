/** When another request has the same text to sign, told from the lines of the request. */
module SignedLines {
  import opened Domain
  import opened SignedRequest

  /** The lines of a text: the stretches between its newlines, one more than there are newlines. */
  function Lines(s: string): (lines: seq<string>)
    ensures lines != []
    decreases |s|
  {
    match Cut(s)
    case None => [s]
    case Some((line, rest)) => CutShrinks(s); [line] + Lines(rest)
  }

  function Join(lines: seq<string>): string
    requires lines != []
  {
    if |lines| == 1 then lines[0] else lines[0] + "\n" + Join(lines[1..])
  }

  lemma {:induction false} CutShrinks(s: string)
    ensures match Cut(s)
            case None => OneLine(s)
            case Some((line, rest)) => OneLine(line) && !OneLine(s) && s == line + "\n" + rest && |rest| < |s|
  {
    if s != "" && s[0] != '\n' {
      CutShrinks(s[1..]);
      match Cut(s[1..])
      case None =>
        assert s == [s[0]] + s[1..];
      case Some((line, rest)) =>
        assert s == [s[0]] + s[1..] == ([s[0]] + line) + "\n" + rest;
        assert s[|line| + 1] == '\n';
    }
  }

  lemma LinesOfOneLine(s: string)
    requires OneLine(s)
    ensures Lines(s) == [s]
  {
    CutShrinks(s);
  }

  /** A newline separates the lines before it from the lines after it. */
  lemma {:induction false} LinesOfBoth(s: string, t: string)
    ensures Lines(s + "\n" + t) == Lines(s) + Lines(t)
    decreases |s|
  {
    CutShrinks(s);
    match Cut(s)
    case None =>
      CutAtNewline(s, t);
    case Some((line, rest)) =>
      assert s + "\n" + t == line + "\n" + (rest + "\n" + t);
      CutAtNewline(line, rest + "\n" + t);
      LinesOfBoth(rest, t);
      assert [line] + (Lines(rest) + Lines(t)) == [line] + Lines(rest) + Lines(t);
  }

  lemma {:induction false} JoinOfBoth(xs: seq<string>, ys: seq<string>)
    requires xs != [] && ys != []
    ensures Join(xs + ys) == Join(xs) + "\n" + Join(ys)
  {
    if |xs| == 1 {
      assert (xs + ys)[1..] == ys;
    } else {
      assert (xs + ys)[1..] == xs[1..] + ys;
      JoinOfBoth(xs[1..], ys);
      assert xs[0] + "\n" + (Join(xs[1..]) + "\n" + Join(ys)) == xs[0] + "\n" + Join(xs[1..]) + "\n" + Join(ys);
    }
  }

  lemma JoinAround(before: seq<string>, line: string, after: seq<string>)
    requires before != [] && after != []
    ensures Join(before + [line] + after) == Join(before) + "\n" + line + "\n" + Join(after)
  {
    JoinOfBoth(before, [line]);
    JoinOfBoth(before + [line], after);
  }

  lemma {:induction false} JoinLines(s: string)
    ensures Join(Lines(s)) == s
    ensures forall i :: 0 <= i < |Lines(s)| ==> OneLine(Lines(s)[i])
    decreases |s|
  {
    CutShrinks(s);
    match Cut(s)
    case None =>
    case Some((line, rest)) =>
      JoinLines(rest);
      assert Lines(s)[1..] == Lines(rest);
  }

  lemma {:induction false} LinesJoin(lines: seq<string>)
    requires lines != [] && forall i :: 0 <= i < |lines| ==> OneLine(lines[i])
    ensures Lines(Join(lines)) == lines
  {
    LinesOfOneLine(lines[0]);
    if |lines| > 1 {
      LinesJoin(lines[1..]);
      LinesOfBoth(lines[0], Join(lines[1..]));
    }
  }

  /** A line that could be the timestamp's: the canonical decimal of an int64. */
  predicate IsTimestamp(line: string) {
    Canonical(line) && ParseInt64(line).Some?
  }

  lemma TimestampIsPrinted(line: string)
    requires IsTimestamp(line)
    ensures line == Print(ParseInt64(line).value as int)
  {
    PrintParseNormalises(line, ParseInt64(line).value);
  }

  lemma PrintedIsTimestamp(n: int64)
    ensures IsTimestamp(Print(n as int))
  {
    ParsePrint(n);
    CanonicalPrint(n as int);
  }

  function Text(a: Signed): string {
    StringToSign(a.verb, a.path, a.timestamp, a.body)
  }

  /** What follows the method's line. */
  function Rest(a: Signed): string {
    a.path + "\n" + Print(a.timestamp as int) + "\n" + a.body
  }

  lemma LinesOfRest(a: Signed)
    ensures Lines(Rest(a)) == Lines(a.path) + [Print(a.timestamp as int)] + Lines(a.body)
  {
    var time := Print(a.timestamp as int);
    PrintIsOneLine(a.timestamp as int);
    LinesOfOneLine(time);
    LinesOfBoth(a.path, time);
    LinesOfBoth(a.path + "\n" + time, a.body);
  }

  lemma SameTextSameRest(a: Signed, b: Signed)
    requires OneLine(a.verb) && OneLine(b.verb)
    ensures Text(a) == Text(b) <==> a.verb == b.verb && Rest(a) == Rest(b)
  {
    assert Text(a) == a.verb + "\n" + Rest(a) && Text(b) == b.verb + "\n" + Rest(b);
    CutAtNewline(a.verb, Rest(a));
    CutAtNewline(b.verb, Rest(b));
  }

  /** Another request, also with a method of one line, has the same text to sign. */
  ghost predicate Ambiguous(a: Signed) {
    exists b: Signed :: b != a && OneLine(b.verb) && Text(b) == Text(a)
  }

  /** Some line of the path after its first, or some line of the body that ends in a newline, could
      be a timestamp's. */
  predicate HasSecondTimestamp(a: Signed) {
    || (exists i :: 1 <= i < |Lines(a.path)| && IsTimestamp(Lines(a.path)[i]))
    || (exists i :: 0 <= i < |Lines(a.body)| - 1 && IsTimestamp(Lines(a.body)[i]))
  }

  lemma SplitAt(s: string, i: nat) returns (before: string, after: string)
    requires 1 <= i < |Lines(s)| - 1
    ensures s == before + "\n" + Lines(s)[i] + "\n" + after && |Lines(before)| == i
  {
    var lines := Lines(s);
    before, after := Join(lines[..i]), Join(lines[i + 1..]);
    JoinLines(s);
    LinesJoin(lines[..i]);
    JoinAround(lines[..i], lines[i], lines[i + 1..]);
    assert lines == lines[..i] + [lines[i]] + lines[i + 1..];
  }

  /** The request whose timestamp is line `i` of what follows the method. */
  lemma ReadAt(a: Signed, i: nat) returns (b: Signed)
    requires OneLine(a.verb) && 1 <= i < |Lines(Rest(a))| - 1 && IsTimestamp(Lines(Rest(a))[i])
    ensures b.verb == a.verb && |Lines(b.path)| == i && Text(b) == Text(a)
  {
    var line := Lines(Rest(a))[i];
    var path, body := SplitAt(Rest(a), i);
    TimestampIsPrinted(line);
    b := Signed(a.verb, path, ParseInt64(line).value, body);
    SameTextSameRest(a, b);
  }

  /** Two readings of the same text with the timestamp on the same line are the same request. */
  lemma SameLineSameRequest(a: Signed, b: Signed)
    requires OneLine(a.verb) && OneLine(b.verb) && Text(a) == Text(b)
    requires |Lines(a.path)| == |Lines(b.path)|
    ensures a == b
  {
    SameTextSameRest(a, b);
    LinesOfRest(a);
    LinesOfRest(b);
    var n, lines := |Lines(a.path)|, Lines(Rest(a));
    assert Lines(a.path) == lines[..n] == Lines(b.path);
    assert Print(a.timestamp as int) == lines[n] == Print(b.timestamp as int);
    assert Lines(a.body) == lines[n + 1..] == Lines(b.body);
    JoinLines(a.path);
    JoinLines(b.path);
    JoinLines(a.body);
    JoinLines(b.body);
    ParsePrint(a.timestamp);
    ParsePrint(b.timestamp);
  }

  lemma SecondReading(a: Signed, b: Signed)
    requires OneLine(a.verb) && OneLine(b.verb) && Text(a) == Text(b) && a != b
    ensures HasSecondTimestamp(a)
  {
    SameTextSameRest(a, b);
    LinesOfRest(a);
    LinesOfRest(b);
    var i, n, lines := |Lines(b.path)|, |Lines(a.path)|, Lines(Rest(a));
    if i == n {
      SameLineSameRequest(a, b);
    }
    PrintedIsTimestamp(b.timestamp);
    assert lines[i] == Print(b.timestamp as int);
    if i < n {
      assert lines[i] == Lines(a.path)[i];
    } else {
      assert lines[i] == Lines(a.body)[i - n - 1];
      assert |lines| == i + 1 + |Lines(b.body)|;
    }
  }

  /** A request with a method of one line shares its text to sign with another exactly when it has a
      second line that could be the timestamp's: in its path after the first line, or in its body
      before the last. */
  lemma AmbiguousIff(a: Signed)
    requires OneLine(a.verb)
    ensures Ambiguous(a) <==> HasSecondTimestamp(a)
  {
    LinesOfRest(a);
    var n, lines := |Lines(a.path)|, Lines(Rest(a));
    if i :| 1 <= i < n && IsTimestamp(Lines(a.path)[i]) {
      assert lines[i] == Lines(a.path)[i];
      var b := ReadAt(a, i);
    } else if i :| 0 <= i < |Lines(a.body)| - 1 && IsTimestamp(Lines(a.body)[i]) {
      assert lines[n + 1 + i] == Lines(a.body)[i];
      var b := ReadAt(a, n + 1 + i);
    } else if Ambiguous(a) {
      var b: Signed :| b != a && OneLine(b.verb) && Text(b) == Text(a);
      SecondReading(a, b);
    }
  }
}
