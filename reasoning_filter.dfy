/** The relay's `filterReasoning` (backend/server.js): eight regular-expression
    deletions of "hedging" sentences, a trim, and a fixed fallback for a reply
    that ends up empty. */
module ReasoningFilter {
  import opened Wrappers
  import opened Text

  /** The literal prefix of a pattern `/<marker>.*?\./g`. */
  type Marker = m: string | m != [] witness "."

  /** The eight markers, in the order the replacements are chained. */
  const Markers: seq<Marker> :=
    ["Okay,", "First,", "Let me", "I need to", "So,", "Therefore,", "In conclusion,", "Thus,"]

  /** What the filter answers when nothing is left. */
  const Fallback: string := "Let's keep the conversation going! 😊"

  /** ECMAScript line terminators: the characters the regex `.` does not match. */
  predicate IsLineTerminator(c: char) {
    c == '\n' || c == '\r' || c == '\U{2028}' || c == '\U{2029}'
  }

  /** No line terminator occurs in `t[..k]`. */
  predicate OnOneLine(t: string, k: nat)
    requires k <= |t|
  {
    forall j :: 0 <= j < k ==> !IsLineTerminator(t[j])
  }

  /** The lazy tail `.*?\.` matched at the front of `t`: the length up to and
      including the first '.', provided no line terminator comes before it. */
  function SentenceTail(t: string): (r: Option<nat>)
    ensures r.Some? ==> 0 < r.value <= |t| && t[r.value - 1] == '.' && OnOneLine(t, r.value)
    ensures r.Some? ==> forall k :: 0 <= k < r.value - 1 ==> t[k] != '.'
    ensures r.None? ==> forall k :: 0 <= k < |t| && OnOneLine(t, k) ==> t[k] != '.'
  {
    if t == [] then None
    else if t[0] == '.' then Some(1)
    else if IsLineTerminator(t[0]) then None
    else
      match SentenceTail(t[1..])
      case Some(n) => Some(n + 1)
      case None => None
  }

  /** The end (exclusive) of a match of `/<m>.*?\./` that starts at the front of `s`. */
  function MatchAt(s: string, m: Marker): (r: Option<nat>)
    ensures r.Some? ==> |m| < r.value <= |s| && s[..|m|] == m && s[r.value - 1] == '.'
    ensures r.Some? ==> '.' !in s[|m|..r.value - 1] && OnOneLine(s[|m|..], r.value - |m|)
    ensures r.None? && |m| <= |s| && s[..|m|] == m ==>
      forall k :: |m| <= k < |s| && OnOneLine(s[|m|..], k - |m|) ==> s[k] != '.'
  {
    if |m| <= |s| && s[..|m|] == m then
      match SentenceTail(s[|m|..])
      case Some(n) => Some(|m| + n)
      case None => None
    else None
  }

  /** Some match of the pattern for `m` starts somewhere in `s`. */
  predicate HasMatch(s: string, m: Marker)
  {
    exists i :: 0 <= i <= |s| && MatchAt(s[i..], m).Some?
  }

  /** `s.replace(/<m>.*?\./g, '')`: the leftmost match is deleted, the scan
      resumes right after it, and every character not inside a match is kept. */
  function Strip(s: string, m: Marker): (r: string)
    ensures |r| <= |s|
    decreases |s|
  {
    if s == [] then []
    else
      match MatchAt(s, m)
      case Some(e) => Strip(s[e..], m)
      case None => [s[0]] + Strip(s[1..], m)
  }

  /** The chain of replacements, one pass per marker, in order. */
  function StripAll(s: string, ms: seq<Marker>): (r: string)
    ensures |r| <= |s|
    decreases |ms|
  {
    if ms == [] then s else StripAll(Strip(s, ms[0]), ms[1..])
  }

  /** `filterReasoning(response)`: never empty and never with whitespace at
      either end. */
  function FilterReasoning(response: string): (r: string)
    ensures r != [] && IsTrimmed(r)
  {
    var filtered := Trim(StripAll(response, Markers));
    if filtered != [] then filtered else Fallback
  }

  /** The filter answers the fallback exactly when the deletions leave only
      whitespace, and otherwise the trimmed remainder. */
  lemma FilterReasoningCases(response: string)
    ensures AllSpace(StripAll(response, Markers)) ==> FilterReasoning(response) == Fallback
    ensures !AllSpace(StripAll(response, Markers)) ==> FilterReasoning(response) == Trim(StripAll(response, Markers))
  {
  }

  /** A pass deletes something exactly when its pattern matches somewhere. */
  lemma {:induction false} StripUnchangedIff(s: string, m: Marker)
    ensures Strip(s, m) == s <==> !HasMatch(s, m)
    decreases |s|
  {
    if HasMatch(s, m) {
      StripShortens(s, m);
    } else {
      StripNoMatch(s, m);
    }
  }

  lemma {:induction false} StripShortens(s: string, m: Marker)
    requires HasMatch(s, m)
    ensures |Strip(s, m)| < |s|
    decreases |s|
  {
    var i :| 0 <= i <= |s| && MatchAt(s[i..], m).Some?;
    if s != [] && MatchAt(s, m).None? {
      assert i != 0;
      assert s[1..][i - 1..] == s[i..];
      StripShortens(s[1..], m);
    }
  }

  lemma {:induction false} StripNoMatch(s: string, m: Marker)
    requires !HasMatch(s, m)
    ensures Strip(s, m) == s
    decreases |s|
  {
    if s != [] {
      assert s[0..] == s;
      assert !HasMatch(s[1..], m) by {
        forall i | 0 <= i <= |s[1..]| ensures MatchAt(s[1..][i..], m).None? {
          assert s[1..][i..] == s[i + 1..];
        }
      }
      StripNoMatch(s[1..], m);
    }
  }

  /** Text with no '.' passes any single pass unchanged. */
  lemma NoSentenceEndKeepsText(s: string, m: Marker)
    requires '.' !in s
    ensures Strip(s, m) == s
  {
    forall i | 0 <= i <= |s| ensures MatchAt(s[i..], m).None? {
    }
    StripNoMatch(s, m);
  }

  /** A marker with no '.' after it on its line is kept: a line without a
      '.' and the line break ending it pass unchanged, even when a '.' follows
      on a later line, and the scan resumes after the break. */
  lemma {:induction false} StripKeepsCutLine(line: string, c: char, rest: string, m: Marker)
    requires '.' !in line && IsLineTerminator(c)
    requires forall x :: x in m ==> !IsLineTerminator(x)
    ensures Strip(line + [c] + rest, m) == line + [c] + Strip(rest, m)
    decreases |line|
  {
    var s := line + [c] + rest;
    if line == [] {
      calc {
        Strip(s, m);
        { NoMatchBeforeCut(line, c, rest, m); }
        [s[0]] + Strip(s[1..], m);
        { assert s[1..] == rest; }
        [c] + Strip(rest, m);
      }
    } else {
      calc {
        Strip(s, m);
        { NoMatchBeforeCut(line, c, rest, m); }
        [s[0]] + Strip(s[1..], m);
        { assert s[1..] == line[1..] + [c] + rest;
          StripKeepsCutLine(line[1..], c, rest, m); }
        [line[0]] + (line[1..] + [c] + Strip(rest, m));
        { assert [line[0]] + line[1..] == line; }
        line + [c] + Strip(rest, m);
      }
    }
  }

  /** No match starts in a line that has no '.' before its break. */
  lemma NoMatchBeforeCut(line: string, c: char, rest: string, m: Marker)
    requires '.' !in line && IsLineTerminator(c)
    requires forall x :: x in m ==> !IsLineTerminator(x)
    ensures MatchAt(line + [c] + rest, m).None?
  {
    var s := line + [c] + rest;
    assert s[|line|] == c;
    if |m| <= |line| {
      var t := s[|m|..];
      assert t[|line| - |m|] == c;
      assert forall k :: 0 <= k < |line| - |m| ==> t[k] == line[|m| + k];
      assert SentenceTail(t).None?;
    } else if |m| <= |s| {
      assert m[|line|] in m;
      assert s[..|m|][|line|] == c;
    }
  }

  /** A complete hedging sentence at the front is deleted, marker through '.'. */
  lemma StripDeletesSentence(m: Marker, body: string, rest: string)
    requires '.' !in body && forall c :: c in body ==> !IsLineTerminator(c)
    ensures Strip(m + body + "." + rest, m) == Strip(rest, m)
  {
    var s := m + body + "." + rest;
    var tail := body + "." + rest;
    assert s[..|m|] == m && s[|m|..] == tail;
    assert tail[|body|] == '.';
    assert OnOneLine(tail, |body|);
    assert SentenceTail(tail) == Some(|body| + 1);
    assert s[|m| + |body| + 1..] == rest;
  }

  /** `m` occurs in `s` at position `i`. */
  predicate OccursAt(s: string, m: string, i: nat) {
    i + |m| <= |s| && s[i..i + |m|] == m
  }

  /** A marker occurring nowhere in `s` leaves the pass without effect. */
  lemma AbsentMarkerKeepsText(s: string, m: Marker)
    requires forall i :: !OccursAt(s, m, i)
    ensures Strip(s, m) == s
  {
    forall i | 0 <= i <= |s| ensures MatchAt(s[i..], m).None? {
      if |m| <= |s[i..]| {
        assert s[i..][..|m|] == s[i..i + |m|];
        assert !OccursAt(s, m, i);
      }
    }
    StripNoMatch(s, m);
  }

  /** Text containing none of the eight markers is only trimmed. */
  lemma {:induction false} NoMarkerOnlyTrimmed(s: string)
    requires forall k, i :: 0 <= k < |Markers| ==> !OccursAt(s, Markers[k], i)
    ensures FilterReasoning(s) == if AllSpace(s) then Fallback else Trim(s)
  {
    AllMarkersAbsent(s, Markers);
  }

  lemma {:induction false} AllMarkersAbsent(s: string, ms: seq<Marker>)
    requires forall k, i :: 0 <= k < |ms| ==> !OccursAt(s, ms[k], i)
    ensures StripAll(s, ms) == s
  {
    if ms != [] {
      assert forall i :: !OccursAt(s, ms[0], i);
      AbsentMarkerKeepsText(s, ms[0]);
      AllMarkersAbsent(s, ms[1..]);
    }
  }

  /** Text without a '.' passes every pass unchanged. */
  lemma {:induction false} NoSentenceEndPassesAll(s: string, ms: seq<Marker>)
    requires '.' !in s
    ensures StripAll(s, ms) == s
    decreases |ms|
  {
    if ms != [] {
      NoSentenceEndKeepsText(s, ms[0]);
      NoSentenceEndPassesAll(s, ms[1..]);
    }
  }

  /** Text in which no marker's first character occurs passes every pass unchanged. */
  lemma {:induction false} NoLeadPassesAll(s: string, ms: seq<Marker>)
    requires forall k :: 0 <= k < |ms| ==> ms[k][0] !in s
    ensures StripAll(s, ms) == s
  {
    AllMarkersAbsent(s, ms);
  }

  /** A trimmed reply without a '.' comes back as it is. */
  lemma NoSentenceEndUnfiltered(s: string)
    requires '.' !in s && s != [] && IsTrimmed(s)
    ensures FilterReasoning(s) == s
  {
    NoSentenceEndPassesAll(s, Markers);
    TrimOfTrimmed(s);
  }

  /** A reply with no '.' at all, such as "Okay, that's great! I'm glad you're
      happy 😊", is returned as it is: its leading "Okay," has no sentence end
      to delete through. */
  lemma UnterminatedHedgeIsKept(s: string)
    requires s == "Okay, that's great! I'm glad you're happy 😊"
    ensures FilterReasoning(s) == s
  {
    assert '.' !in s && s != [] && IsTrimmed(s);
    NoSentenceEndUnfiltered(s);
  }

  /** The passes do not rescan what they leave behind, so the filter is not
      idempotent: from "OkOkay, a.ay, b." (any lower-case letters in place of
      `a` and `b`) the "Okay," pass deletes "Okay, a." and so splices a new
      hedging sentence "Okay, b." together, which a second filtering deletes. */
  lemma FilterNotIdempotent(a: char, b: char)
    requires 'a' <= a <= 'z' && 'a' <= b <= 'z'
    ensures FilterReasoning("OkOkay, " + [a] + ".ay, " + [b] + ".") == "Okay, " + [b] + "."
    ensures FilterReasoning(FilterReasoning("OkOkay, " + [a] + ".ay, " + [b] + ".")) == Fallback
  {
    FilterSplices(a, b);
    HedgeOnlyIsFallback(b);
  }

  lemma FilterSplices(a: char, b: char)
    requires 'a' <= a <= 'z' && 'a' <= b <= 'z'
    ensures FilterReasoning("OkOkay, " + [a] + ".ay, " + [b] + ".") == "Okay, " + [b] + "."
  {
    var once := "Okay, " + [b] + ".";
    SplicedHedgeSurvives(a, b);
    assert Trim(once) == once by {
      assert once[0] == 'O' && once[|once| - 1] == '.';
      TrimOfTrimmed(once);
    }
  }

  lemma SplicedHedgeSurvives(a: char, b: char)
    requires 'a' <= a <= 'z' && 'a' <= b <= 'z'
    ensures StripAll("OkOkay, " + [a] + ".ay, " + [b] + ".", Markers) == "Okay, " + [b] + "."
  {
    var once := "Okay, " + [b] + ".";
    SplicedHedge(a, b);
    var rest := Markers[1..];
    assert forall k :: 0 <= k < |rest| ==> rest[k][0] in "FLIST";
    NoLeadPassesAll(once, rest);
  }

  /** The "Okay," pass over "OkOkay, a.ay, b." deletes "Okay, a." and keeps
      the "Ok" before it and the "ay, b." after it. */
  lemma SplicedHedge(a: char, b: char)
    requires 'a' <= a <= 'z' && 'a' <= b <= 'z'
    ensures Strip("OkOkay, " + [a] + ".ay, " + [b] + ".", Markers[0]) == "Okay, " + [b] + "."
  {
    var inner := "Okay, " + [a] + ".ay, " + [b] + ".";
    calc {
      Strip("OkOkay, " + [a] + ".ay, " + [b] + ".", Markers[0]);
      { assert Markers[0] == "Okay,";
        assert "OkOkay, " + [a] + ".ay, " + [b] + "." == "Ok" + inner; }
      Strip("Ok" + inner, "Okay,");
      { StripKeepsOk(inner, "Okay,"); }
      "Ok" + Strip(inner, "Okay,");
      { SplicedInner(a, b); }
      "Ok" + ("ay, " + [b] + ".");
      "Okay, " + [b] + ".";
    }
  }

  /** The pass deletes the hedge at the front of "Okay, a.ay, b.". */
  lemma SplicedInner(a: char, b: char)
    requires 'a' <= a <= 'z' && 'a' <= b <= 'z'
    ensures Strip("Okay, " + [a] + ".ay, " + [b] + ".", "Okay,") == "ay, " + [b] + "."
  {
    var m: Marker := "Okay,";
    var tail := "ay, " + [b] + ".";
    assert "Okay, " + [a] + ".ay, " + [b] + "." == m + [' ', a] + "." + tail;
    StripDeletesSentence(m, [' ', a], tail);
    NoLeadPassesAll(tail, [m]);
  }

  /** No match starts at either character of a leading "Ok" when the marker
      does not continue with "k" or with the text after it. */
  lemma StripKeepsOk(inner: string, m: Marker)
    requires |m| > 2 && m[0] != 'k' && inner != [] && inner[0] != m[2]
    ensures Strip("Ok" + inner, m) == "Ok" + Strip(inner, m)
  {
    var s := "Ok" + inner;
    StripKeepsMismatch(s, m, 2);
    assert s[1..] == "k" + inner;
    StripKeepsMismatch(s[1..], m, 0);
    assert s[1..][1..] == inner;
  }

  /** A pass keeps the first character when the text differs from the marker
      at some position the marker covers. */
  lemma StripKeepsMismatch(s: string, m: Marker, j: nat)
    requires j < |s| && j < |m| && s[j] != m[j]
    ensures Strip(s, m) == [s[0]] + Strip(s[1..], m)
  {
    if |m| <= |s| {
      assert s[..|m|][j] != m[j];
    }
  }

  /** A reply that is one complete hedging sentence filters to the fallback. */
  lemma HedgeOnlyIsFallback(b: char)
    requires 'a' <= b <= 'z'
    ensures FilterReasoning("Okay, " + [b] + ".") == Fallback
  {
    var t := "Okay, " + [b] + ".";
    var m := Markers[0];
    assert m == "Okay,";
    var body := " " + [b];
    assert t == m + body + "." + [];
    StripDeletesSentence(m, body, []);
    assert Strip(t, m) == [];
    assert StripAll(t, Markers) == StripAll([], Markers[1..]);
  }
}
