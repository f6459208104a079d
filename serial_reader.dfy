/// The line assembly of `poll_serial`, as a function of the bytes read: a
/// 128-byte buffer holds at most 127 characters of the line being received;
/// `'\r'` is skipped, `'\n'` hands the buffered characters to the line
/// handler and empties the buffer, and a character arriving at a full buffer
/// empties it and is itself dropped.
module SerialReader {

  /// `sizeof(serial_buffer)`.
  const BufferSize: nat := 128
  /// Characters a line can hold: one byte is kept for the terminating NUL.
  const MaxLine: nat := BufferSize - 1

  /// The buffered characters and the lines handed to the handler, in order.
  datatype Fed = Fed(pending: seq<char>, lines: seq<seq<char>>)

  predicate NoTerminators(s: seq<char>)
  {
    forall i :: 0 <= i < |s| ==> s[i] != '\n' && s[i] != '\r'
  }

  /// The effect of one received character.
  function ReadChar(pending: seq<char>, c: char): (f: Fed)
    ensures |pending| <= MaxLine ==> |f.pending| <= MaxLine
    ensures |f.lines| == 1 <==> c == '\n'
    ensures |f.lines| == 0 <==> c != '\n'
    ensures c == '\n' ==> f.lines == [pending] && f.pending == []
    ensures c == '\r' ==> f.pending == pending
    ensures c != '\n' && c != '\r' ==> (f.pending == pending + [c] <==> |pending| < MaxLine)
    ensures c != '\n' && c != '\r' && |pending| >= MaxLine ==> f.pending == []
  {
    if c == '\r' then Fed(pending, [])
    else if c == '\n' then Fed([], [pending])
    else if |pending| < MaxLine then Fed(pending + [c], [])
    else Fed([], [])
  }

  /// The effect of the characters `input`, received in order, on a buffer
  /// that holds `pending`.
  function Feed(pending: seq<char>, input: seq<char>): (f: Fed)
    ensures |pending| <= MaxLine ==> |f.pending| <= MaxLine
    ensures |pending| <= MaxLine ==> forall k :: 0 <= k < |f.lines| ==> |f.lines[k]| <= MaxLine
    ensures NoTerminators(pending) ==> NoTerminators(f.pending)
    ensures NoTerminators(pending) ==> forall k :: 0 <= k < |f.lines| ==> NoTerminators(f.lines[k])
  {
    if input == [] then Fed(pending, [])
    else
      var before := Feed(pending, input[..|input| - 1]);
      var step := ReadChar(before.pending, input[|input| - 1]);
      Fed(step.pending, before.lines + step.lines)
  }

  /// Feeding two pieces one after the other is feeding their concatenation.
  lemma {:induction false} FeedAppend(pending: seq<char>, s: seq<char>, t: seq<char>)
    ensures var first := Feed(pending, s);
            var second := Feed(first.pending, t);
            Feed(pending, s + t) == Fed(second.pending, first.lines + second.lines)
  {
    if t != [] {
      var t' := t[..|t| - 1];
      assert (s + t)[..|s + t| - 1] == s + t';
      assert (s + t)[|s + t| - 1] == t[|t| - 1];
      FeedAppend(pending, s, t');
    } else {
      assert s + t == s;
    }
  }

  /// Carriage returns are dropped wherever they appear.
  lemma CarriageReturnIgnored(pending: seq<char>, s: seq<char>, t: seq<char>)
    ensures Feed(pending, s + ['\r'] + t) == Feed(pending, s + t)
  {
    FeedAppend(pending, s + ['\r'], t);
    FeedAppend(pending, s, ['\r']);
    FeedAppend(pending, s, t);
    assert Feed(Feed(pending, s).pending, ['\r']) == Fed(Feed(pending, s).pending, []) by {
      assert ['\r'][..0] == [];
    }
  }

  /// Characters that are not terminators and fit are appended to the buffer
  /// and nothing is handed on.
  lemma {:induction false} FeedFitting(pending: seq<char>, s: seq<char>)
    requires NoTerminators(s) && |pending| + |s| <= MaxLine
    ensures Feed(pending, s) == Fed(pending + s, [])
  {
    if s != [] {
      var s' := s[..|s| - 1];
      FeedFitting(pending, s');
      assert pending + s' + [s[|s| - 1]] == pending + s;
    } else {
      assert pending + s == pending;
    }
  }

  /// A line of at most 127 characters followed by `'\n'`, received on an
  /// empty buffer, is handed on exactly and leaves the buffer empty.
  lemma LineDispatched(line: seq<char>)
    requires NoTerminators(line) && |line| <= MaxLine
    ensures Feed([], line + ['\n']) == Fed([], [line])
  {
    FeedAppend([], line, ['\n']);
    FeedFitting([], line);
    assert ['\n'][..0] == [];
    assert [] + line == line;
  }

  /// A character arriving at a full buffer empties it and hands nothing on.
  lemma OverflowResets(pending: seq<char>, c: char)
    requires |pending| == MaxLine && c != '\n' && c != '\r'
    ensures Feed(pending, [c]) == Fed([], [])
  {
    assert [c][..0] == [];
  }

  /// Only the part of an overlong line that follows the overflow is lost:
  /// the characters after it are buffered afresh and handed on at the next
  /// `'\n'` as a line of their own.
  lemma OverlongLineTailDispatched(head: seq<char>, c: char, tail: seq<char>)
    requires NoTerminators(head) && |head| == MaxLine && c != '\n' && c != '\r'
    requires NoTerminators(tail) && |tail| <= MaxLine
    ensures Feed([], head + [c] + tail + ['\n']) == Fed([], [tail])
  {
    FeedFitting([], head);
    assert [] + head == head;
    FeedAppend([], head, [c]);
    OverflowResets(head, c);
    FeedAppend([], head + [c], tail + ['\n']);
    LineDispatched(tail);
    assert head + [c] + tail + ['\n'] == (head + [c]) + (tail + ['\n']);
  }
}
