/** Python's `str.splitlines()` and the fixed-offset frame extraction both
    clients apply to the conversation endpoint's streamed reply:
    `text.splitlines()[-4][6:]`. */
module Lines {
  import opened Py

  /** The characters `str.splitlines` treats as line boundaries ("\r\n" counts
      as one boundary). */
  predicate IsBreak(c: char) {
    || c == '\n' || c == '\r' || c == '\U{0B}' || c == '\U{0C}'
    || c == '\U{1C}' || c == '\U{1D}' || c == '\U{1E}' || c == '\U{85}'
    || c == '\U{2028}' || c == '\U{2029}'
  }

  predicate NoBreaks(s: string) {
    forall i :: 0 <= i < |s| ==> !IsBreak(s[i])
  }

  /** Index of the first line boundary in `s`, or |s| if there is none. */
  function LineEnd(s: string): (i: nat)
    ensures i <= |s|
    ensures NoBreaks(s[..i])
    ensures i < |s| ==> IsBreak(s[i])
  {
    if s == [] || IsBreak(s[0]) then 0
    else
      var j := LineEnd(s[1..]);
      assert s[..j + 1] == [s[0]] + s[1..][..j];
      j + 1
  }

  /** Width of the boundary starting at s[i]: two for "\r\n", one otherwise. */
  function BreakWidth(s: string, i: nat): (w: nat)
    requires i < |s|
    ensures 1 <= w && i + w <= |s|
  {
    if s[i] == '\r' && i + 1 < |s| && s[i + 1] == '\n' then 2 else 1
  }

  /** `s.splitlines()`: the lines of `s` without their boundaries; an empty
      string has no lines and a final boundary does not open an empty line. */
  function SplitLines(s: string): (lines: seq<string>)
    ensures forall k :: 0 <= k < |lines| ==> NoBreaks(lines[k])
    ensures lines == [] <==> s == []
    ensures NoBreaks(s) && s != [] ==> lines == [s]
    decreases |s|
  {
    if s == [] then []
    else
      var i := LineEnd(s);
      if i == |s| then
        assert s[..i] == s;
        [s]
      else
        [s[..i]] + SplitLines(s[i + BreakWidth(s, i)..])
  }

  /** Lines joined back together, each one followed by "\n" (the shape of a
      streamed body). */
  function Terminated(lines: seq<string>): string {
    if lines == [] then "" else lines[0] + "\n" + Terminated(lines[1..])
  }

  /** The first boundary of `l + [c] + rest` is the `c` after `l`. */
  lemma {:induction false} LineEndAfter(l: string, c: char, rest: string)
    requires NoBreaks(l) && IsBreak(c)
    ensures LineEnd(l + [c] + rest) == |l|
  {
    if l != [] {
      assert (l + [c] + rest)[1..] == l[1..] + [c] + rest;
      LineEndAfter(l[1..], c, rest);
    }
  }

  /** `splitlines` undoes `Terminated` on lines that hold no boundary. */
  lemma {:induction false} SplitTerminated(lines: seq<string>)
    requires forall k :: 0 <= k < |lines| ==> NoBreaks(lines[k])
    ensures SplitLines(Terminated(lines)) == lines
  {
    if lines != [] {
      var l, rest := lines[0], Terminated(lines[1..]);
      var s := Terminated(lines);
      assert s == l + ['\n'] + rest;
      LineEndAfter(l, '\n', rest);
      assert s[|l|] == '\n';
      assert BreakWidth(s, |l|) == 1 by {
        assert s[|l|] != '\r';
      }
      assert s[..|l|] == l;
      assert s[|l| + 1..] == rest;
      SplitTerminated(lines[1..]);
      assert lines == [l] + lines[1..];
    }
  }

  /** The frame both clients parse: the 4th line from the end of the body with
      its first six characters (the "data: " marker) dropped; a body of fewer
      than four lines raises IndexError, as `lines[-4]` does. */
  function Payload(text: string): (r: Result<string>)
    ensures r.Err? <==> |SplitLines(text)| < 4
    ensures r.Err? ==> r.error == IndexError
    ensures r.Ok? ==>
      var line := SplitLines(text)[|SplitLines(text)| - 4];
      && |r.value| == (if |line| < 6 then 0 else |line| - 6)
      && line[|line| - |r.value|..] == r.value
  {
    var lines := SplitLines(text);
    if |lines| < 4 then Err(IndexError)
    else Ok(DropPrefix(lines[|lines| - 4], 6))
  }

  /** The marker that opens every data frame of the stream. */
  const DataMarker := "data: "

  /** The lines of a streamed reply that carries one data frame per payload:
      every frame is followed by a blank line, and the stream ends with the
      "[DONE]" frame and its blank line. */
  function StreamLines(payloads: seq<string>): (lines: seq<string>)
    ensures |lines| == 2 * |payloads| + 2
  {
    if payloads == [] then [DataMarker + "[DONE]", ""]
    else [DataMarker + payloads[0], ""] + StreamLines(payloads[1..])
  }

  lemma {:induction false} StreamLinesHaveNoBreaks(payloads: seq<string>)
    requires forall k :: 0 <= k < |payloads| ==> NoBreaks(payloads[k])
    ensures forall k :: 0 <= k < |StreamLines(payloads)| ==> NoBreaks(StreamLines(payloads)[k])
  {
    if payloads != [] {
      StreamLinesHaveNoBreaks(payloads[1..]);
      var head := DataMarker + payloads[0];
      assert NoBreaks(head) by {
        forall i | 0 <= i < |head| ensures !IsBreak(head[i]) {
          if i >= |DataMarker| { assert head[i] == payloads[0][i - |DataMarker|]; }
        }
      }
    }
  }

  lemma {:induction false} StreamLinesEnd(payloads: seq<string>)
    requires payloads != []
    ensures var lines := StreamLines(payloads);
      lines[|lines| - 4] == DataMarker + payloads[|payloads| - 1]
  {
    if |payloads| > 1 {
      StreamLinesEnd(payloads[1..]);
    }
  }

  /** On a body made of break-free lines, each terminated, the payload is
      read from the 4th of those lines from the end. */
  lemma PayloadOfTerminated(lines: seq<string>)
    requires forall k :: 0 <= k < |lines| ==> NoBreaks(lines[k])
    ensures |lines| < 4 ==> Payload(Terminated(lines)) == Err(IndexError)
    ensures |lines| >= 4 ==> Payload(Terminated(lines)) == Ok(DropPrefix(lines[|lines| - 4], 6))
  {
    SplitTerminated(lines);
  }

  /** What the fixed offset is for: on a well-formed stream the extracted
      payload is exactly the last data frame before "[DONE]"; a stream without
      any data frame raises IndexError. */
  lemma {:induction false} PayloadOfStream(payloads: seq<string>)
    requires forall k :: 0 <= k < |payloads| ==> NoBreaks(payloads[k])
    ensures payloads == [] ==> Payload(Terminated(StreamLines(payloads))) == Err(IndexError)
    ensures payloads != [] ==>
      Payload(Terminated(StreamLines(payloads))) == Ok(payloads[|payloads| - 1])
  {
    var lines := StreamLines(payloads);
    StreamLinesHaveNoBreaks(payloads);
    PayloadOfTerminated(lines);
    if payloads != [] {
      StreamLinesEnd(payloads);
      var last := payloads[|payloads| - 1];
      assert DropPrefix(DataMarker + last, 6) == last;
    }
  }
}
