/**
 * Matching one URN against one template of the resolver table. A template
 * is a colon-separated list of segments, each a literal or a named capture
 * with an optional inline pattern; the URN's own `urn` scheme segment comes
 * first and is not written in the templates. A URN matches when it has as
 * many segments, every literal is equal and every capture satisfies its
 * pattern; the captured texts are handed to the handler in order.
 */
module Router {
  import opened Optional
  import opened Strings

  datatype Pattern =
      /** A capture without an inline pattern: any non-empty segment. */
    | AnySegment
      /** `0x[a-fA-F0-9]+` */
    | HexPattern
      /** `[0-9]+` */
    | DecimalPattern

  datatype Segment = Literal(text: string) | Capture(name: string, pattern: Pattern)

  predicate IsHexDigit(c: char) {
    '0' <= c <= '9' || 'a' <= c <= 'f' || 'A' <= c <= 'F'
  }

  predicate IsDecimalDigit(c: char) {
    '0' <= c <= '9'
  }

  /** `0x[a-fA-F0-9]+`, anchored at both ends of the segment. */
  predicate MatchesHex(text: string) {
    |text| >= 3 && text[0] == '0' && text[1] == 'x' && forall i :: 2 <= i < |text| ==> IsHexDigit(text[i])
  }

  /** `[0-9]+`, anchored at both ends of the segment. */
  predicate MatchesDecimal(text: string) {
    |text| >= 1 && forall i :: 0 <= i < |text| ==> IsDecimalDigit(text[i])
  }

  predicate PatternMatches(p: Pattern, text: string) {
    match p
    case AnySegment => text != ""
    case HexPattern => MatchesHex(text)
    case DecimalPattern => MatchesDecimal(text)
  }

  predicate SegmentMatches(seg: Segment, text: string) {
    match seg
    case Literal(t) => text == t
    case Capture(_, p) => PatternMatches(p, text)
  }

  /** Every position moved one to the right. */
  function Shift(ps: seq<nat>): (r: seq<nat>)
    ensures |r| == |ps| && forall k :: 0 <= k < |ps| ==> r[k] == ps[k] + 1
  {
    seq(|ps|, k requires 0 <= k < |ps| => ps[k] + 1)
  }

  /** The positions of the captures of `segs`, from left to right. */
  function CapturePositions(segs: seq<Segment>): (ps: seq<nat>)
    ensures |ps| == CaptureCount(segs)
    ensures forall k :: 0 <= k < |ps| ==> ps[k] < |segs|
  {
    if segs == [] then []
    else if segs[0].Capture? then [0] + Shift(CapturePositions(segs[1..]))
    else Shift(CapturePositions(segs[1..]))
  }

  /** The text of `parts` that stand where `segs` has captures, in order. */
  function Captured(segs: seq<Segment>, parts: seq<string>): (caps: seq<string>)
    requires |segs| == |parts|
    ensures |caps| == CaptureCount(segs)
  {
    if segs == [] then []
    else if segs[0].Capture? then [parts[0]] + Captured(segs[1..], parts[1..])
    else Captured(segs[1..], parts[1..])
  }

  /** Every capture position holds a capture. */
  lemma {:induction false} CapturePositionsAreCaptures(segs: seq<Segment>)
    ensures forall k :: 0 <= k < |CapturePositions(segs)| ==> segs[CapturePositions(segs)[k]].Capture?
  {
    if segs != [] {
      var tail := segs[1..];
      var rest := CapturePositions(tail);
      CapturePositionsAreCaptures(tail);
      var shifted := Shift(rest);
      forall k | 0 <= k < |shifted| ensures segs[shifted[k]].Capture? {
        assert shifted[k] == rest[k] + 1 && rest[k] < |tail|;
        assert tail[rest[k]].Capture?;
        assert segs[shifted[k]] == tail[rest[k]];
      }
      if segs[0].Capture? {
        assert CapturePositions(segs) == [0] + shifted;
      } else {
        assert CapturePositions(segs) == shifted;
      }
    }
  }

  /** The capture positions increase from left to right, so none is repeated. */
  lemma {:induction false} CapturePositionsIncrease(segs: seq<Segment>)
    ensures forall k, l :: 0 <= k < l < |CapturePositions(segs)| ==> CapturePositions(segs)[k] < CapturePositions(segs)[l]
  {
    if segs != [] {
      var rest := CapturePositions(segs[1..]);
      CapturePositionsIncrease(segs[1..]);
      var shifted := Shift(rest);
      forall k, l | 0 <= k < l < |shifted| ensures shifted[k] < shifted[l] {
        assert rest[k] < rest[l];
      }
      if segs[0].Capture? {
        var ps := [0] + shifted;
        assert CapturePositions(segs) == ps;
        forall k, l | 0 <= k < l < |ps| ensures ps[k] < ps[l] {
          assert ps[l] == shifted[l - 1] == rest[l - 1] + 1;
          if k > 0 {
            assert ps[k] == shifted[k - 1];
          }
        }
      } else {
        assert CapturePositions(segs) == shifted;
      }
    }
  }

  /** Every capture of `segs` is at one of the capture positions. */
  lemma {:induction false} CapturePositionsAreComplete(segs: seq<Segment>)
    ensures forall j :: 0 <= j < |segs| && segs[j].Capture? ==> j in CapturePositions(segs)
  {
    if segs != [] {
      var tail := segs[1..];
      var rest := CapturePositions(tail);
      CapturePositionsAreComplete(tail);
      var shifted := Shift(rest);
      forall j | 1 <= j < |segs| && segs[j].Capture? ensures j in shifted {
        assert tail[j - 1] == segs[j];
        var k :| 0 <= k < |rest| && rest[k] == j - 1;
        assert shifted[k] == j;
      }
      if segs[0].Capture? {
        var ps := [0] + shifted;
        assert CapturePositions(segs) == ps;
        assert ps[0] == 0;
        forall j | 1 <= j < |segs| && segs[j].Capture? ensures j in ps {
          assert j in shifted;
        }
      }
    }
  }

  /** The `k`-th capture is the part at the `k`-th capture position. */
  lemma {:induction false} CapturedAtPositions(segs: seq<Segment>, parts: seq<string>)
    requires |segs| == |parts|
    ensures forall k :: 0 <= k < CaptureCount(segs) ==> Captured(segs, parts)[k] == parts[CapturePositions(segs)[k]]
  {
    if segs != [] {
      CapturedAtPositions(segs[1..], parts[1..]);
      var rest := Captured(segs[1..], parts[1..]);
      var ps := CapturePositions(segs[1..]);
      forall k | 0 <= k < |rest| ensures rest[k] == parts[Shift(ps)[k]] {
        assert parts[1..][ps[k]] == parts[ps[k] + 1];
      }
    }
  }

  function CaptureCount(segs: seq<Segment>): nat {
    if segs == [] then 0 else (if segs[0].Capture? then 1 else 0) + CaptureCount(segs[1..])
  }

  /** Whether the colon-separated `parts` of a URN fit the template segments. */
  predicate Fits(segs: seq<Segment>, parts: seq<string>) {
    && |parts| == |segs| + 1
    && parts[0] == "urn"
    && forall i :: 0 <= i < |segs| ==> SegmentMatches(segs[i], parts[i + 1])
  }

  /**
   * The captures of `urn` under the template `segs`, or `None` when the
   * URN does not have the template's shape. The `k`-th capture is the URN
   * segment standing at the template's `k`-th capture, one place right of
   * it because of the leading `urn`.
   */
  function Match(segs: seq<Segment>, urn: string): (caps: Option<seq<string>>)
    ensures caps.Some? <==> Fits(segs, Split(urn, ':'))
    ensures caps.Some? ==> caps.value == Captured(segs, Split(urn, ':')[1..])
    ensures caps.Some? ==> |caps.value| == CaptureCount(segs)
    ensures caps.Some? ==>
              forall k :: 0 <= k < |caps.value| ==> caps.value[k] == Split(urn, ':')[CapturePositions(segs)[k] + 1]
  {
    var parts := Split(urn, ':');
    if Fits(segs, parts) then
      CapturedAtPositions(segs, parts[1..]);
      Some(Captured(segs, parts[1..]))
    else None
  }

  /** Captures are collected one segment at a time, from the left. */
  lemma CapturedStep(segs: seq<Segment>, parts: seq<string>, i: nat)
    requires |segs| == |parts| && i < |segs|
    ensures Captured(segs[i..], parts[i..])
            == (if segs[i].Capture? then [parts[i]] else []) + Captured(segs[i + 1..], parts[i + 1..])
  {
    assert segs[i..][1..] == segs[i + 1..];
    assert parts[i..][1..] == parts[i + 1..];
  }

  /** What one segment contributes to the captures. */
  function Pick(seg: Segment, part: string): seq<string> {
    if seg.Capture? then [part] else []
  }

  lemma CapturedFour(segs: seq<Segment>, parts: seq<string>)
    requires |segs| == |parts| == 4
    ensures Captured(segs, parts)
            == Pick(segs[0], parts[0]) + Pick(segs[1], parts[1]) + Pick(segs[2], parts[2]) + Pick(segs[3], parts[3])
  {
    CapturedStep(segs, parts, 3);
    CapturedStep(segs, parts, 2);
    CapturedStep(segs, parts, 1);
    CapturedStep(segs, parts, 0);
    assert segs[0..] == segs && parts[0..] == parts;
  }

  lemma CapturedFive(segs: seq<Segment>, parts: seq<string>)
    requires |segs| == |parts| == 5
    ensures Captured(segs, parts)
            == Pick(segs[0], parts[0]) + Pick(segs[1], parts[1]) + Pick(segs[2], parts[2]) + Pick(segs[3], parts[3])
               + Pick(segs[4], parts[4])
  {
    CapturedStep(segs, parts, 4);
    CapturedFour(segs[1..], parts[1..]);
    CapturedStep(segs, parts, 0);
    assert segs[0..] == segs && parts[0..] == parts;
  }

  lemma FitsFour(segs: seq<Segment>, parts: seq<string>)
    requires |segs| == 4
    ensures Fits(segs, parts)
            <==> |parts| == 5 && parts[0] == "urn"
                 && SegmentMatches(segs[0], parts[1]) && SegmentMatches(segs[1], parts[2])
                 && SegmentMatches(segs[2], parts[3]) && SegmentMatches(segs[3], parts[4])
  {
    if |parts| == 5 && parts[0] == "urn"
       && SegmentMatches(segs[0], parts[1]) && SegmentMatches(segs[1], parts[2])
       && SegmentMatches(segs[2], parts[3]) && SegmentMatches(segs[3], parts[4]) {
      forall i | 0 <= i < 4 ensures SegmentMatches(segs[i], parts[i + 1]) {
        assert i == 0 || i == 1 || i == 2 || i == 3;
      }
    }
  }

  lemma FitsFive(segs: seq<Segment>, parts: seq<string>)
    requires |segs| == 5
    ensures Fits(segs, parts)
            <==> |parts| == 6 && parts[0] == "urn"
                 && SegmentMatches(segs[0], parts[1]) && SegmentMatches(segs[1], parts[2])
                 && SegmentMatches(segs[2], parts[3]) && SegmentMatches(segs[3], parts[4])
                 && SegmentMatches(segs[4], parts[5])
  {
    if |parts| == 6 && parts[0] == "urn"
       && SegmentMatches(segs[0], parts[1]) && SegmentMatches(segs[1], parts[2])
       && SegmentMatches(segs[2], parts[3]) && SegmentMatches(segs[3], parts[4])
       && SegmentMatches(segs[4], parts[5]) {
      forall i | 0 <= i < 5 ensures SegmentMatches(segs[i], parts[i + 1]) {
        assert i == 0 || i == 1 || i == 2 || i == 3 || i == 4;
      }
    }
  }

  /** A hex text never matches the decimal pattern: the two v2 id shapes are disjoint. */
  lemma HexAndDecimalDisjoint(text: string)
    ensures !(MatchesHex(text) && MatchesDecimal(text))
  {
  }

  /** `0x` followed by a lower-case hex rendering matches the hex pattern. */
  lemma HexRenderingMatches(n: nat)
    ensures MatchesHex("0x" + NatToString(n, 16))
  {
    var s := "0x" + NatToString(n, 16);
    forall i | 2 <= i < |s| ensures IsHexDigit(s[i]) {
      assert s[i] == NatToString(n, 16)[i - 2];
    }
  }
}
