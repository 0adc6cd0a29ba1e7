/**
 * The event-stream wire format as the client reads it: the line decoder
 * (`SSEClient.parse_sse_line`) and the event assembler that `SSEClient.listen_stream`
 * runs over the lines of one response.
 *
 * The recognised prefixes are those of the event-stream format (section 9.2.6 of the
 * WHATWG HTML Living Standard), but written exactly as `"event: "`, `"data: "` and
 * `"id: "`, space included. Any line the decoder returns nothing for (blank line,
 * `:` comment, or an unrecognised field) ends the pending event.
 */
module SseWire {
  import opened Wrappers
  import opened PyStr
  import opened JsonModel

  const EVENT_PREFIX: string := "event: "
  const DATA_PREFIX: string := "data: "
  const ID_PREFIX: string := "id: "

  /** What one decoded line carries. */
  datatype Token =
    | EventName(name: string)
    | Data(payload: Json)
    | Id(id: string)

  /** One assembled event, the dictionary `{'event': ..., 'data'?: ..., 'id'?: ...}`. */
  datatype Event = Event(name: string, data: Option<Json>, id: Option<string>)

  /** The payload of a `data: ` line whose stripped remainder is `text`, when
      `json.loads` did not raise anything but `JSONDecodeError`. */
  function DataPayload(result: JsonResult, text: string): Json
    requires !result.Raised?
  {
    match result
    case Parsed(v) => v
    case DecodeError => TextPayload(text)
  }

  /** `parse_sse_line`: one line to a token, or to nothing. */
  function ParseSseLine(line: string, loads: Loads): (t: Option<Token>)
    ensures line == [] || StartsWith(line, ":") ==> t == None
    ensures (t.Some? && t.value.EventName?) <==> StartsWith(line, EVENT_PREFIX)
    ensures (t.Some? && t.value.Id?) <==> StartsWith(line, ID_PREFIX)
    ensures (t.Some? && t.value.Data?) <==>
              StartsWith(line, DATA_PREFIX) && !loads(Strip(line[|DATA_PREFIX|..])).Raised?
  {
    if line == [] || StartsWith(line, ":") then
      assert line != [] ==> line[0] == ':';
      None
    else if StartsWith(line, EVENT_PREFIX) then Some(EventName(Strip(line[7..])))
    else if StartsWith(line, DATA_PREFIX) then
      var text := Strip(line[6..]);
      var result := loads(text);
      if result.Raised? then None  // caught by the outer handler, logged, nothing returned
      else Some(Data(DataPayload(result, text)))
    else if StartsWith(line, ID_PREFIX) then Some(Id(Strip(line[4..])))
    else None
  }

  /** The decoder ignores the line: the assembler treats it as the end of an event. */
  predicate Flushes(line: string, loads: Loads) {
    ParseSseLine(line, loads).None?
  }

  // ---------------------------------------------------------------------------
  // The assembler, as a left fold over the lines of one response.
  // ---------------------------------------------------------------------------

  /** The assembler's state: `current_event` and the events yielded so far. */
  datatype Assembler = Assembler(pending: Option<Event>, emitted: seq<Event>)

  const Idle: Assembler := Assembler(None, [])

  /** One iteration of `listen_stream`'s loop. A `None` from `iter_lines` is skipped. */
  function Feed(a: Assembler, line: Option<string>, loads: Loads): Assembler {
    if line.None? then a
    else
      match ParseSseLine(line.value, loads)
      case None =>
        if a.pending.Some? then Assembler(None, a.emitted + [a.pending.value]) else a
      case Some(EventName(n)) => Assembler(Some(Event(n, None, None)), a.emitted)
      case Some(Data(d)) =>
        if a.pending.Some? then a.(pending := Some(a.pending.value.(data := Some(d)))) else a
      case Some(Id(i)) =>
        if a.pending.Some? then a.(pending := Some(a.pending.value.(id := Some(i)))) else a
  }

  /** The assembler after reading `lines`, starting from `a`. */
  function ReadLines(a: Assembler, lines: seq<Option<string>>, loads: Loads): Assembler
    decreases |lines|
  {
    if lines == [] then a
    else Feed(ReadLines(a, lines[..|lines| - 1], loads), lines[|lines| - 1], loads)
  }

  /** The events `listen_stream` yields for a response made of `lines`. */
  function Assemble(lines: seq<Option<string>>, loads: Loads): seq<Event> {
    ReadLines(Idle, lines, loads).emitted
  }

  /** One line yields at most one event, and only the pending one, after which nothing
      is pending; a skipped `None` line changes nothing. */
  lemma FeedYieldsPending(a: Assembler, line: Option<string>, loads: Loads)
    ensures var b := Feed(a, line, loads);
            && (line.None? ==> b == a)
            && a.emitted <= b.emitted && |b.emitted| <= |a.emitted| + 1
            && (|b.emitted| > |a.emitted| ==> a.pending.Some? && b.emitted[|a.emitted|] == a.pending.value && b.pending.None?)
  {
  }

  /** Reading lines only appends events, at most one per line; so `listen_stream`
      yields no more events than the body has lines. */
  lemma {:induction false} ReadGrows(a: Assembler, lines: seq<Option<string>>, loads: Loads)
    ensures var b := ReadLines(a, lines, loads);
            a.emitted <= b.emitted && |b.emitted| <= |a.emitted| + |lines|
    ensures a == Idle ==> |Assemble(lines, loads)| <= |lines|
    decreases |lines|
  {
    if lines != [] {
      ReadGrows(a, lines[..|lines| - 1], loads);
      FeedYieldsPending(ReadLines(a, lines[..|lines| - 1], loads), lines[|lines| - 1], loads);
    }
  }

  // ---------------------------------------------------------------------------
  // The decoder.
  // ---------------------------------------------------------------------------

  /** An `event: ` line gives back its name, whatever whitespace pads it. */
  lemma ParseEventLine(pad: string, name: string, trail: string, loads: Loads)
    requires AllSpace(pad) && AllSpace(trail) && Unpadded(name)
    ensures ParseSseLine(EVENT_PREFIX + pad + name + trail, loads) == Some(EventName(name))
  {
    var line := EVENT_PREFIX + pad + name + trail;
    assert line[7..] == pad + name + trail;
    StripPadded(pad, name, trail);
  }

  /** An `id: ` line gives back its id, whatever whitespace pads it. */
  lemma ParseIdLine(pad: string, id: string, trail: string, loads: Loads)
    requires AllSpace(pad) && AllSpace(trail) && Unpadded(id)
    ensures ParseSseLine(ID_PREFIX + pad + id + trail, loads) == Some(Id(id))
  {
    var line := ID_PREFIX + pad + id + trail;
    assert line[4..] == pad + id + trail;
    StripPadded(pad, id, trail);
  }

  /** A `data: ` line never aborts the decoder: its stripped text is handed to
      `json.loads`; a value is kept, a decode error degrades to the text payload,
      and only an exception of another kind makes the line read as nothing. */
  lemma ParseDataLine(pad: string, text: string, trail: string, loads: Loads)
    requires AllSpace(pad) && AllSpace(trail) && Unpadded(text)
    ensures ParseSseLine(DATA_PREFIX + pad + text + trail, loads) ==
              match loads(text)
              case Parsed(v) => Some(Data(v))
              case DecodeError => Some(Data(TextPayload(text)))
              case Raised => None
  {
    var line := DATA_PREFIX + pad + text + trail;
    assert line[6..] == pad + text + trail;
    StripPadded(pad, text, trail);
  }

  /** Only the three exact prefixes carry meaning: `event:` without its space, `retry: `,
      or any other field is ignored. */
  lemma UnknownFieldIgnored(line: string, loads: Loads)
    requires !StartsWith(line, EVENT_PREFIX) && !StartsWith(line, DATA_PREFIX) && !StartsWith(line, ID_PREFIX)
    ensures Flushes(line, loads)
  {
  }

  // ---------------------------------------------------------------------------
  // The assembler.
  // ---------------------------------------------------------------------------

  /** Reading a response in two parts is reading it whole. */
  lemma {:induction false} ReadAppend(a: Assembler, xs: seq<Option<string>>, ys: seq<Option<string>>, loads: Loads)
    ensures ReadLines(a, xs + ys, loads) == ReadLines(ReadLines(a, xs, loads), ys, loads)
    decreases |ys|
  {
    if ys == [] {
      assert xs + ys == xs;
    } else {
      var ys' := ys[..|ys| - 1];
      assert (xs + ys)[..|xs + ys| - 1] == xs + ys';
      ReadAppend(a, xs, ys', loads);
    }
  }

  /** Events already yielded are never revisited: what a run yields depends only on the
      pending event it starts from. */
  lemma {:induction false} ReadKeepsEmitted(a: Assembler, lines: seq<Option<string>>, loads: Loads)
    ensures ReadLines(a, lines, loads).emitted == a.emitted + ReadLines(Assembler(a.pending, []), lines, loads).emitted
    ensures ReadLines(a, lines, loads).pending == ReadLines(Assembler(a.pending, []), lines, loads).pending
    decreases |lines|
  {
    if lines != [] {
      ReadKeepsEmitted(a, lines[..|lines| - 1], loads);
    }
  }

  /** A line the decoder ignores ends the pending event: it is yielded once and
      forgotten; with nothing pending, nothing is yielded. This holds for a blank
      line, a `:` comment and an unknown field alike. */
  lemma FlushYieldsPending(a: Assembler, line: string, loads: Loads)
    requires Flushes(line, loads)
    ensures Feed(a, Some(line), loads) ==
              Assembler(None, a.emitted + (if a.pending.Some? then [a.pending.value] else []))
  {
  }

  /** An `event: ` line starts a fresh event: whatever was pending and not yet
      flushed is discarded. */
  lemma EventLineDiscardsPending(a: Assembler, name: string, loads: Loads)
    ensures Feed(a, Some(EVENT_PREFIX + name), loads) ==
              Assembler(Some(Event(Strip(name), None, None)), a.emitted)
  {
    var line := EVENT_PREFIX + name;
    assert StartsWith(line, EVENT_PREFIX) && line[7..] == name;
  }

  /** Without a pending event, `data: ` and `id: ` lines are dropped. */
  lemma StrayFieldDropped(e: seq<Event>, line: string, loads: Loads)
    requires !Flushes(line, loads) && !StartsWith(line, EVENT_PREFIX)
    ensures Feed(Assembler(None, e), Some(line), loads) == Assembler(None, e)
  {
  }

  /** A `data: ` or `id: ` line (or a `None` from the transport) inside a frame. */
  predicate FieldLine(line: Option<string>, loads: Loads) {
    line.None? || (var t := ParseSseLine(line.value, loads); t.Some? && !t.value.EventName?)
  }

  /** The payload of the last `data: ` line among `fields`, if any. */
  function LastData(fields: seq<Option<string>>, loads: Loads): Option<Json>
    decreases |fields|
  {
    if fields == [] then None
    else
      var l := fields[|fields| - 1];
      if l.Some? && ParseSseLine(l.value, loads).Some? && ParseSseLine(l.value, loads).value.Data?
      then Some(ParseSseLine(l.value, loads).value.payload)
      else LastData(fields[..|fields| - 1], loads)
  }

  /** The id of the last `id: ` line among `fields`, if any. */
  function LastId(fields: seq<Option<string>>, loads: Loads): Option<string>
    decreases |fields|
  {
    if fields == [] then None
    else
      var l := fields[|fields| - 1];
      if l.Some? && ParseSseLine(l.value, loads).Some? && ParseSseLine(l.value, loads).value.Id?
      then Some(ParseSseLine(l.value, loads).value.id)
      else LastId(fields[..|fields| - 1], loads)
  }

  /** Field lines fill the pending event in place, the last of each kind winning. */
  lemma {:induction false} FieldsFill(e: Event, emitted: seq<Event>, fields: seq<Option<string>>, loads: Loads)
    requires forall k :: 0 <= k < |fields| ==> FieldLine(fields[k], loads)
    ensures ReadLines(Assembler(Some(e), emitted), fields, loads) ==
              Assembler(Some(Event(e.name,
                                   if LastData(fields, loads).Some? then LastData(fields, loads) else e.data,
                                   if LastId(fields, loads).Some? then LastId(fields, loads) else e.id)),
                        emitted)
    decreases |fields|
  {
    if fields != [] {
      FieldsFill(e, emitted, fields[..|fields| - 1], loads);
    }
  }

  /** One well-formed frame (`event: `, any number of `data: `/`id: ` lines, then a line
      that ends the event) yields exactly one event: its name, the last data and the
      last id. Whatever was pending before the frame is discarded. */
  lemma FrameYieldsOneEvent(a: Assembler, name: string, fields: seq<Option<string>>, end: string, loads: Loads)
    requires forall k :: 0 <= k < |fields| ==> FieldLine(fields[k], loads)
    requires Flushes(end, loads)
    ensures ReadLines(a, [Some(EVENT_PREFIX + name)] + fields + [Some(end)], loads) ==
              Assembler(None, a.emitted + [Event(Strip(name), LastData(fields, loads), LastId(fields, loads))])
  {
    var head := [Some(EVENT_PREFIX + name)];
    ReadAppend(a, head + fields, [Some(end)], loads);
    ReadAppend(a, head, fields, loads);
    assert ReadLines(a, head, loads) == Feed(a, Some(EVENT_PREFIX + name), loads) by {
      assert head[..0] == [];
    }
    EventLineDiscardsPending(a, name, loads);
    FieldsFill(Event(Strip(name), None, None), a.emitted, fields, loads);
    assert [Some(end)][..0] == [];
  }

  /** A line that ends an event leaves nothing pending, so the frames before it and
      the lines after it are assembled independently: no event mixes fields of two
      frames. */
  lemma FramesIndependent(xs: seq<Option<string>>, end: string, ys: seq<Option<string>>, loads: Loads)
    requires Flushes(end, loads)
    ensures Assemble(xs + [Some(end)] + ys, loads) ==
              Assemble(xs + [Some(end)], loads) + Assemble(ys, loads)
  {
    var front := xs + [Some(end)];
    ReadAppend(Idle, front, ys, loads);
    var mid := ReadLines(Idle, front, loads);
    assert front[..|front| - 1] == xs;
    assert mid.pending == None;
    ReadKeepsEmitted(mid, ys, loads);
  }

  /** The names `event: ` lines among `lines` declare. */
  function DeclaredNames(lines: seq<Option<string>>): set<string> {
    set k | 0 <= k < |lines| && lines[k].Some? && StartsWith(lines[k].value, EVENT_PREFIX)
      :: Strip(lines[k].value[7..])
  }

  /** Every event the assembler holds, yielded or pending, has its name in `names`. */
  predicate NamedFrom(a: Assembler, names: set<string>) {
    && (forall k :: 0 <= k < |a.emitted| ==> a.emitted[k].name in names)
    && (a.pending.Some? ==> a.pending.value.name in names)
  }

  lemma FeedKeepsNames(a: Assembler, line: Option<string>, names: set<string>, loads: Loads)
    requires NamedFrom(a, names)
    requires line.Some? && StartsWith(line.value, EVENT_PREFIX) ==> Strip(line.value[7..]) in names
    ensures NamedFrom(Feed(a, line, loads), names)
  {
    var out := Feed(a, line, loads).emitted;
    assert out == a.emitted || (a.pending.Some? && out == a.emitted + [a.pending.value]);
    forall k | 0 <= k < |out| ensures out[k].name in names {
      if k < |a.emitted| {
        assert out[k] == a.emitted[k];
      }
    }
  }

  /** Reading one more line can only declare more names. */
  lemma DeclaredNamesGrow(lines: seq<Option<string>>)
    requires lines != []
    ensures DeclaredNames(lines[..|lines| - 1]) <= DeclaredNames(lines)
    ensures var last := lines[|lines| - 1];
            last.Some? && StartsWith(last.value, EVENT_PREFIX) ==> Strip(last.value[7..]) in DeclaredNames(lines)
  {
    var init := lines[..|lines| - 1];
    forall n | n in DeclaredNames(init) ensures n in DeclaredNames(lines) {
      var k :| 0 <= k < |init| && init[k].Some? && StartsWith(init[k].value, EVENT_PREFIX)
               && n == Strip(init[k].value[7..]);
      assert lines[k] == init[k];
    }
    var j := |lines| - 1;
    if lines[j].Some? && StartsWith(lines[j].value, EVENT_PREFIX) {
      assert Strip(lines[j].value[7..]) in DeclaredNames(lines);
    }
  }

  lemma NamedFromWiden(a: Assembler, names: set<string>, more: set<string>)
    requires NamedFrom(a, names) && names <= more
    ensures NamedFrom(a, more)
  {
  }

  /** Every event yielded, and the pending one, is named by an `event: ` line of the
      response: the assembler invents no event. */
  lemma {:induction false} EventsAreDeclared(lines: seq<Option<string>>, loads: Loads)
    ensures NamedFrom(ReadLines(Idle, lines, loads), DeclaredNames(lines))
    decreases |lines|
  {
    if lines != [] {
      var init := lines[..|lines| - 1];
      EventsAreDeclared(init, loads);
      DeclaredNamesGrow(lines);
      var prev := ReadLines(Idle, init, loads);
      NamedFromWiden(prev, DeclaredNames(init), DeclaredNames(lines));
      FeedKeepsNames(prev, lines[|lines| - 1], DeclaredNames(lines), loads);
    }
  }

  /** A frame of one `event: ` line, one `data: ` line holding JSON, and a blank line
      (the shape of every event the server sends) yields that one event with the
      decoded payload. */
  lemma SimpleFrame(name: string, text: string, loads: Loads, payload: Json)
    requires Unpadded(name) && Unpadded(text) && loads(text) == Parsed(payload)
    ensures Assemble([Some(EVENT_PREFIX + name)] + [Some(DATA_PREFIX + text)] + [Some("")], loads)
              == [Event(name, Some(payload), None)]
  {
    OneDataField(text, loads, payload);
    StripPadded("", name, "");
    assert "" + name + "" == name;
    FrameYieldsOneEvent(Idle, name, [Some(DATA_PREFIX + text)], "", loads);
  }

  lemma OneDataField(text: string, loads: Loads, payload: Json)
    requires Unpadded(text) && loads(text) == Parsed(payload)
    ensures FieldLine(Some(DATA_PREFIX + text), loads)
    ensures LastData([Some(DATA_PREFIX + text)], loads) == Some(payload)
    ensures LastId([Some(DATA_PREFIX + text)], loads) == None
  {
    var line := DATA_PREFIX + text;
    var fields := [Some(line)];
    ParseDataLine("", text, "", loads);
    assert DATA_PREFIX + "" + text + "" == line;
    assert ParseSseLine(line, loads) == Some(Data(payload));
    assert fields[..0] == [];
    assert LastId(fields[..0], loads) == None;
  }
}
