/// The serial link between the camera script and the firmware: the line
/// `send_marker_data` writes is assembled by the firmware's serial reader
/// and scanned by `handle_serial_line` back into the marker that was sent.
module Link {
  import opened Ints
  import opened Wrappers
  import opened Scan
  import opened SerialReader
  import opened Tracker
  import opened Workflow

  /// A run of digits followed by a non-digit (or nothing) is read whole.
  lemma {:induction false} DigitRunOfDigits(ds: seq<char>, rest: seq<char>)
    requires AllDigits(ds) && (rest == [] || !IsDigit(rest[0]))
    ensures DigitRun(ds + rest) == |ds|
  {
    if ds == [] {
      assert ds + rest == rest;
    } else {
      assert (ds + rest)[1..] == ds[1..] + rest;
      DigitRunOfDigits(ds[1..], rest);
    }
  }

  /// `%d` reads back what `str` wrote, stopping at the comma that follows.
  lemma IntRoundTrip(v: int, rest: seq<char>)
    requires rest == [] || rest[0] == ','
    ensures ScanInt(IntToString(v) + rest) == Some(Scanned(v, rest))
  {
    var text := IntToString(v);
    var s := text + rest;
    var digits := if v < 0 then text[1..] else text;
    assert SpaceRun(s) == 0 by {
      assert s[0] == text[0];
    }
    assert s[0..] == s;
    var u := if v < 0 then s[1..] else s;
    assert u == digits + rest;
    DigitRunOfDigits(digits, rest);
    assert u[..|digits|] == digits;
    assert u[|digits|..] == rest;
  }

  /// The three conversions of `"%d,%d,%d"`, each followed by its comma.
  lemma ScanReportOfParts(line: seq<char>, s1: seq<char>, s2: seq<char>, id: int, row: int, col: int)
    requires ScanInt(line) == Some(Scanned(id, [','] + s1))
    requires ScanInt(s1) == Some(Scanned(row, [','] + s2))
    requires ScanInt(s2) == Some(Scanned(col, []))
    ensures ScanReport(line) == Some(Report(id, row, col))
  {
    assert ([','] + s1)[1..] == s1;
    assert ([','] + s2)[1..] == s2;
  }

  /// A record is its first field, a comma and the rest.
  lemma RecordParts(m: MarkerInfo)
    ensures Record(m) == IntToString(m.id) + ([','] + (IntToString(m.gridRow) + ([','] + IntToString(m.gridCol))))
  {
    var a, b, c := IntToString(m.id), IntToString(m.gridRow), IntToString(m.gridCol);
    calc {
      Record(m);
      ((a + [',']) + b) + ([','] + c);
      (a + [',']) + (b + ([','] + c));
      a + ([','] + (b + ([','] + c)));
    }
  }

  /// `sscanf(line, "%d,%d,%d", ...)` recovers the three fields of a record.
  lemma RecordRoundTrip(m: MarkerInfo)
    ensures ScanReport(Record(m)) == Some(Report(m.id, m.gridRow, m.gridCol))
  {
    var s2 := IntToString(m.gridCol);
    var s1 := IntToString(m.gridRow) + ([','] + s2);
    RecordParts(m);
    IntRoundTrip(m.id, [','] + s1);
    IntRoundTrip(m.gridRow, [','] + s2);
    IntRoundTrip(m.gridCol, []);
    assert s2 + [] == s2;
    ScanReportOfParts(Record(m), s1, s2, m.id, m.gridRow, m.gridCol);
  }

  /// `str` of an integer writes only digits and a minus sign.
  lemma IntToStringHasNoTerminators(v: int)
    ensures NoTerminators(IntToString(v))
  {
    var s := IntToString(v);
    forall i | 0 <= i < |s|
      ensures s[i] != '\n' && s[i] != '\r'
    {
      if v < 0 && i > 0 {
        assert s[i] == s[1..][i - 1];
      }
    }
  }

  /// Joining two pieces without terminators gives none.
  lemma NoTerminatorsAppend(s: seq<char>, t: seq<char>)
    requires NoTerminators(s) && NoTerminators(t)
    ensures NoTerminators(s + t)
  {
    forall i | 0 <= i < |s + t|
      ensures (s + t)[i] != '\n' && (s + t)[i] != '\r'
    {
      if i >= |s| {
        assert (s + t)[i] == t[i - |s|];
      }
    }
  }

  /// A record holds no line terminator.
  lemma RecordHasNoTerminators(m: MarkerInfo)
    ensures NoTerminators(Record(m))
  {
    IntToStringHasNoTerminators(m.id);
    IntToStringHasNoTerminators(m.gridRow);
    IntToStringHasNoTerminators(m.gridCol);
    var a, b, c := IntToString(m.id), IntToString(m.gridRow), IntToString(m.gridCol);
    assert NoTerminators(",");
    NoTerminatorsAppend(a, ",");
    NoTerminatorsAppend(a + ",", b);
    NoTerminatorsAppend(a + "," + b, ",");
    NoTerminatorsAppend(a + "," + b + ",", c);
  }

  /// What the firmware makes of one `send_marker_data` call: received on an
  /// empty buffer, the line is handed to `handle_serial_line` once, which
  /// sets the position to the primary marker's cell (x = column, y = row)
  /// and records its id; a target is then reached exactly when it is that
  /// cell. The line must fit the firmware's 128-byte buffer.
  lemma SentLineUpdatesCamera(portOpen: bool, ms: seq<MarkerInfo>, camera: CameraData, now: U32,
                              targetX: int, targetY: int)
    requires SendMarkerData(portOpen, ms).Some?
    requires |SendMarkerData(portOpen, ms).value| <= BufferSize
    ensures var fed := Feed([], SendMarkerData(portOpen, ms).value);
            var primary := ms[PrimaryIndex(ms)];
            var c := ApplyLines(camera, fed.lines, now);
            && fed == Fed([], [Record(primary)])
            && c.currentX == primary.gridCol && c.currentY == primary.gridRow
            && c.detectedMarker == Marker(primary.id, primary.gridRow, primary.gridCol, true)
            && c.markerDetected && c.lastUpdateTime == now
            && (CheckTargetReached(c, targetX, targetY) <==>
                  primary.gridCol == targetX && primary.gridRow == targetY)
  {
    var k :| IsPrimary(ms, k) && SendMarkerData(portOpen, ms).value == FormatLine(ms[k]);
    PrimaryUnique(ms, k, PrimaryIndex(ms));
    var primary := ms[k];
    RecordHasNoTerminators(primary);
    LineDispatched(Record(primary));
    RecordRoundTrip(primary);
    var lines := [Record(primary)];
    assert lines[..0] == [];
  }
}
