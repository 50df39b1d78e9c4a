/** The InfluxDB line-protocol serialiser of the Rust extractors: the
    measurement name, one ",key=value" per tag, a space, the "key=value"
    fields joined by ",", a space and the timestamp in nanoseconds. Nothing
    is escaped.

    The tag and field maps are given as lists of pairs in their iteration
    order. A field value is an `f64` printed with `format!("{}", v)`; that
    printing is the parameter `show`. The HTTP client around the serialiser
    is not modelled.

    `ParseLine` is an independent reader for the format, and the main
    result is exactly when reading a serialised line gives back the point. */
module InfluxClient {
  import opened Common

  /** `format!("{}={}", k, v)`. */
  function Item(k: string, v: string): string
  {
    k + "=" + v
  }

  /** The items of a list of pairs, in order. */
  function Items(pairs: seq<(string, string)>): seq<string>
  {
    seq(|pairs|, i requires 0 <= i < |pairs| => Item(pairs[i].0, pairs[i].1))
  }

  /** The tag section: ",key=value" for each tag, in iteration order. */
  function TagSection(tags: seq<(string, string)>): string
    decreases |tags|
  {
    if tags == [] then ""
    else
      var last := tags[|tags| - 1];
      TagSection(tags[..|tags| - 1]) + "," + Item(last.0, last.1)
  }

  /** `field_strs.join(",")`: empty for no fields. */
  function FieldSection(items: seq<string>): string
  {
    if items == [] then "" else JoinWith(items, ',')
  }

  /** The fields with their values printed by `show`. */
  function Rendered(fields: seq<(string, real)>, show: real -> string): seq<(string, string)>
  {
    seq(|fields|, i requires 0 <= i < |fields| => (fields[i].0, show(fields[i].1)))
  }

  /** The line for a measurement, its tags, its printed fields and a
      timestamp. */
  function Line(measurement: string, tags: seq<(string, string)>, fields: seq<(string, string)>, timestamp: int): string
  {
    measurement + TagSection(tags) + " " + FieldSection(Items(fields)) + " " + IntToString(timestamp)
  }

  /** `InfluxClient::build_line_protocol`. */
  method BuildLineProtocol(measurement: string, tags: seq<(string, string)>, fields: seq<(string, real)>,
                           show: real -> string, timestampNs: int)
    returns (line: string)
    ensures line == Line(measurement, tags, Rendered(fields, show), timestampNs)
  {
    line := measurement;
    for i := 0 to |tags|
      invariant line == measurement + TagSection(tags[..i])
    {
      assert tags[..i + 1][..i] == tags[..i];
      line := line + [','];
      line := line + Item(tags[i].0, tags[i].1);
    }
    assert tags[..|tags|] == tags;
    line := line + [' '];
    var fieldStrs := Items(Rendered(fields, show));
    line := line + FieldSection(fieldStrs);
    line := line + [' '];
    line := line + IntToString(timestampNs);
  }

  // -----------------------------------------------------------------------
  // Reading a line back

  datatype Point = Point(measurement: string, tags: seq<(string, string)>, fields: seq<(string, string)>, timestamp: int)

  /** "key=value" with exactly one '='. */
  function ParsePair(s: string): Option<(string, string)>
  {
    var kv := SplitOn(s, '=');
    if |kv| == 2 then Some((kv[0], kv[1])) else None
  }

  function ParsePairs(items: seq<string>): Option<seq<(string, string)>>
  {
    if items == [] then Some([])
    else match (ParsePair(items[0]), ParsePairs(items[1..]))
      case (Some(p), Some(ps)) => Some([p] + ps)
      case _ => None
  }

  /** Three space-separated sections: the measurement with its ",key=value"
      tags, the ","-separated fields (none when empty), and the timestamp. */
  function ParseLine(line: string): Option<Point>
  {
    var sections := SplitOn(line, ' ');
    if |sections| != 3 then None
    else
      var head := SplitOn(sections[0], ',');
      var tags := ParsePairs(head[1..]);
      var fields := if sections[1] == "" then Some([]) else ParsePairs(SplitOn(sections[1], ','));
      var timestamp := ParseInt(sections[2]);
      if tags.Some? && fields.Some? && timestamp.Some? then
        Some(Point(head[0], tags.value, fields.value, timestamp.value))
      else None
  }

  /** A measurement name that needs no escaping. */
  predicate PlainMeasurement(m: string)
  {
    ',' !in m && ' ' !in m
  }

  /** A key or value that needs no escaping. */
  predicate PlainName(s: string)
  {
    ',' !in s && ' ' !in s && '=' !in s
  }

  predicate PlainPairs(pairs: seq<(string, string)>)
  {
    forall i :: 0 <= i < |pairs| ==> PlainName(pairs[i].0) && PlainName(pairs[i].1)
  }

  // -----------------------------------------------------------------------
  // The shape of a line

  /** The measurement and tags are the measurement and the tag items joined
      by ','. */
  lemma {:induction false} HeadJoin(m: string, tags: seq<(string, string)>)
    ensures m + TagSection(tags) == JoinWith([m] + Items(tags), ',')
    decreases |tags|
  {
    if tags != [] {
      var n := |tags| - 1;
      HeadJoin(m, tags[..n]);
      assert Items(tags) == Items(tags[..n]) + [Item(tags[n].0, tags[n].1)];
      assert [m] + Items(tags) == ([m] + Items(tags[..n])) + [Item(tags[n].0, tags[n].1)];
      JoinWithSnoc([m] + Items(tags[..n]), ',', Item(tags[n].0, tags[n].1));
    } else {
      assert [m] + Items(tags) == [m];
    }
  }

  /** The line is its three sections joined by ' '. */
  lemma LineSections(m: string, tags: seq<(string, string)>, fields: seq<(string, string)>, timestamp: int)
    ensures Line(m, tags, fields, timestamp)
            == JoinWith([m + TagSection(tags), FieldSection(Items(fields)), IntToString(timestamp)], ' ')
  {
    var h, f, t := m + TagSection(tags), FieldSection(Items(fields)), IntToString(timestamp);
    assert [h, f, t][1..] == [f, t];
    assert [f, t][1..] == [t];
    assert JoinWith([f, t], ' ') == f + " " + t;
    assert JoinWith([h, f, t], ' ') == h + " " + (f + " " + t);
  }

  /** A printed integer holds only a sign and digits. */
  lemma TimestampPlain(timestamp: int)
    ensures PlainName(IntToString(timestamp))
  {
    var d := NatToString(if timestamp < 0 then -timestamp else timestamp);
    assert forall x :: x in d ==> '0' <= x <= '9';
    if timestamp < 0 {
      assert IntToString(timestamp) == "-" + d;
    }
  }

  lemma PlainItems(pairs: seq<(string, string)>, x: char)
    requires PlainPairs(pairs) && (x == ',' || x == ' ')
    ensures forall i :: 0 <= i < |pairs| ==> x !in Items(pairs)[i]
  {
  }

  /** With plain names, the measurement-and-tags section has exactly one ','
      per tag. */
  lemma TagSeparators(m: string, tags: seq<(string, string)>)
    requires ',' !in m && PlainPairs(tags)
    ensures Occurrences(m + TagSection(tags), ',') == |tags|
  {
    HeadJoin(m, tags);
    PlainItems(tags, ',');
    SplitJoinOn([m] + Items(tags), ',');
    SplitCount(m + TagSection(tags), ',');
  }

  /** With plain names, the line has exactly two spaces: one before the
      fields, one before the timestamp. */
  lemma TwoSpaces(m: string, tags: seq<(string, string)>, fields: seq<(string, string)>, timestamp: int)
    requires PlainMeasurement(m) && PlainPairs(tags) && PlainPairs(fields)
    ensures Occurrences(Line(m, tags, fields, timestamp), ' ') == 2
  {
    SectionsSplit(m, tags, fields, timestamp);
    SplitCount(Line(m, tags, fields, timestamp), ' ');
  }

  /** Whatever the names, the line starts with the measurement and ends with
      a space and the printed timestamp. */
  lemma LineEnds(m: string, tags: seq<(string, string)>, fields: seq<(string, string)>, timestamp: int)
    ensures var line := Line(m, tags, fields, timestamp);
            var t := IntToString(timestamp);
            |line| > |m| + |t| && line[..|m|] == m
            && line[|line| - |t|..] == t && line[|line| - |t| - 1] == ' '
  {
  }

  /** With plain names the line splits into the three sections. */
  lemma SectionsSplit(m: string, tags: seq<(string, string)>, fields: seq<(string, string)>, timestamp: int)
    requires PlainMeasurement(m) && PlainPairs(tags) && PlainPairs(fields)
    ensures SplitOn(Line(m, tags, fields, timestamp), ' ')
            == [m + TagSection(tags), FieldSection(Items(fields)), IntToString(timestamp)]
  {
    var head := m + TagSection(tags);
    HeadJoin(m, tags);
    PlainItems(tags, ' ');
    JoinWithAvoids([m] + Items(tags), ',', ' ');
    PlainItems(fields, ' ');
    if fields != [] {
      JoinWithAvoids(Items(fields), ',', ' ');
    }
    TimestampPlain(timestamp);
    LineSections(m, tags, fields, timestamp);
    SplitJoinOn([head, FieldSection(Items(fields)), IntToString(timestamp)], ' ');
  }

  // -----------------------------------------------------------------------
  // Round trip

  lemma PairRoundTrip(k: string, v: string)
    requires '=' !in k && '=' !in v
    ensures ParsePair(Item(k, v)) == Some((k, v))
  {
    assert JoinWith([k, v], '=') == Item(k, v) by {
      assert [k, v][1..] == [v];
    }
    SplitJoinOn([k, v], '=');
  }

  lemma {:induction false} PairsRoundTrip(pairs: seq<(string, string)>)
    requires PlainPairs(pairs)
    ensures ParsePairs(Items(pairs)) == Some(pairs)
    decreases |pairs|
  {
    if pairs != [] {
      PairRoundTrip(pairs[0].0, pairs[0].1);
      assert Items(pairs)[1..] == Items(pairs[1..]);
      PairsRoundTrip(pairs[1..]);
      assert [pairs[0]] + pairs[1..] == pairs;
    }
  }

  lemma PairSound(s: string)
    requires ParsePair(s).Some?
    ensures var p := ParsePair(s).value;
            s == Item(p.0, p.1) && '=' !in p.0 && '=' !in p.1
  {
    var kv := SplitOn(s, '=');
    JoinSplitOn(s, '=');
    assert kv[1..] == [kv[1]];
  }

  /** What a successful read of pairs says about the items it read. */
  lemma {:induction false} PairsSound(items: seq<string>, pairs: seq<(string, string)>)
    requires ParsePairs(items) == Some(pairs)
    ensures items == Items(pairs)
    ensures forall i :: 0 <= i < |pairs| ==> '=' !in pairs[i].0 && '=' !in pairs[i].1
    decreases |items|
  {
    if items != [] {
      var p := ParsePair(items[0]).value;
      var rest := ParsePairs(items[1..]).value;
      assert pairs == [p] + rest;
      PairsSound(items[1..], rest);
      PairSound(items[0]);
      assert Items(pairs) == [Item(p.0, p.1)] + Items(rest);
      assert items == [items[0]] + items[1..];
    }
  }

  /** A field section that is not empty does not read as no fields. */
  lemma FieldSectionNotEmpty(fields: seq<(string, string)>)
    requires fields != []
    ensures FieldSection(Items(fields)) != ""
  {
    assert '=' in Items(fields)[0];
    JoinWithContains(Items(fields), ',', 0, '=');
  }

  /** Reading a serialised line gives back its measurement, tags, fields and
      timestamp exactly when no key or value contains ',', ' ' or '=' and the
      measurement contains neither ',' nor ' '. */
  lemma RoundTrip(m: string, tags: seq<(string, string)>, fields: seq<(string, string)>, timestamp: int)
    ensures ParseLine(Line(m, tags, fields, timestamp)) == Some(Point(m, tags, fields, timestamp))
            <==> PlainMeasurement(m) && PlainPairs(tags) && PlainPairs(fields)
  {
    if PlainMeasurement(m) && PlainPairs(tags) && PlainPairs(fields) {
      PlainRoundTrip(m, tags, fields, timestamp);
    }
    if ParseLine(Line(m, tags, fields, timestamp)) == Some(Point(m, tags, fields, timestamp)) {
      ReadBackIsPlain(m, tags, fields, timestamp);
    }
  }

  lemma PlainRoundTrip(m: string, tags: seq<(string, string)>, fields: seq<(string, string)>, timestamp: int)
    requires PlainMeasurement(m) && PlainPairs(tags) && PlainPairs(fields)
    ensures ParseLine(Line(m, tags, fields, timestamp)) == Some(Point(m, tags, fields, timestamp))
  {
    var sections := SplitOn(Line(m, tags, fields, timestamp), ' ');
    SectionsSplit(m, tags, fields, timestamp);
    assert sections[0] == m + TagSection(tags);
    assert sections[1] == FieldSection(Items(fields));
    assert sections[2] == IntToString(timestamp);
    HeadReadsBack(m, tags);
    FieldsReadBack(fields);
    ParseRendered(timestamp);
  }

  lemma HeadReadsBack(m: string, tags: seq<(string, string)>)
    requires PlainMeasurement(m) && PlainPairs(tags)
    ensures var head := SplitOn(m + TagSection(tags), ',');
            head[0] == m && ParsePairs(head[1..]) == Some(tags)
  {
    HeadJoin(m, tags);
    PlainItems(tags, ',');
    SplitJoinOn([m] + Items(tags), ',');
    assert ([m] + Items(tags))[1..] == Items(tags);
    PairsRoundTrip(tags);
  }

  lemma FieldsReadBack(fields: seq<(string, string)>)
    requires PlainPairs(fields)
    ensures var s := FieldSection(Items(fields));
            (if s == "" then Some([]) else ParsePairs(SplitOn(s, ','))) == Some(fields)
  {
    if fields != [] {
      FieldSectionNotEmpty(fields);
      PlainItems(fields, ',');
      SplitJoinOn(Items(fields), ',');
      PairsRoundTrip(fields);
    }
  }

  /** Every character of a pair's key and value appears in the join of the
      items. */
  lemma JoinedItemsAvoid(parts: seq<string>, pairs: seq<(string, string)>, offset: nat, c: char, i: nat, x: char)
    requires |parts| == offset + |pairs| && parts[offset..] == Items(pairs) && i < |pairs|
    requires x !in JoinWith(parts, c)
    ensures x !in pairs[i].0 && x !in pairs[i].1
  {
    assert parts[offset + i] == Item(pairs[i].0, pairs[i].1);
    JoinWithPieceAvoids(parts, c, offset + i, x);
  }

  lemma ReadBackIsPlain(m: string, tags: seq<(string, string)>, fields: seq<(string, string)>, timestamp: int)
    requires ParseLine(Line(m, tags, fields, timestamp)) == Some(Point(m, tags, fields, timestamp))
    ensures PlainMeasurement(m) && PlainPairs(tags) && PlainPairs(fields)
  {
    var sections := SplitOn(Line(m, tags, fields, timestamp), ' ');
    var head := SplitOn(sections[0], ',');
    PairsSound(head[1..], tags);
    JoinSplitOn(sections[0], ',');
    assert head[0] == m;
    JoinWithPieceAvoids(head, ',', 0, ' ');
    forall i | 0 <= i < |tags|
      ensures PlainName(tags[i].0) && PlainName(tags[i].1)
    {
      assert head[1 + i] == Item(tags[i].0, tags[i].1);
      assert ',' !in head[1 + i];
      JoinedItemsAvoid(head, tags, 1, ',', i, ' ');
    }
    if fields != [] {
      var items := SplitOn(sections[1], ',');
      PairsSound(items, fields);
      JoinSplitOn(sections[1], ',');
      forall i | 0 <= i < |fields|
        ensures PlainName(fields[i].0) && PlainName(fields[i].1)
      {
        assert items[i] == Item(fields[i].0, fields[i].1);
        assert ',' !in items[i];
        JoinedItemsAvoid(items, fields, 0, ',', i, ' ');
      }
    }
  }

  /** The serialiser run on plain names produces a line that reads back. */
  lemma BuiltLineReadsBack(m: string, tags: seq<(string, string)>, fields: seq<(string, real)>,
                           show: real -> string, timestamp: int)
    requires PlainMeasurement(m) && PlainPairs(tags) && PlainPairs(Rendered(fields, show))
    ensures var p := ParseLine(Line(m, tags, Rendered(fields, show), timestamp));
            p.Some? && p.value.measurement == m && p.value.tags == tags && p.value.timestamp == timestamp
            && |p.value.fields| == |fields|
            && forall i :: 0 <= i < |fields| ==> p.value.fields[i] == (fields[i].0, show(fields[i].1))
  {
    PlainRoundTrip(m, tags, Rendered(fields, show), timestamp);
  }
}
