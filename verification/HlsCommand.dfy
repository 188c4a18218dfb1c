/** The argument list of the single-command encoder, and what ffmpeg reads from it. */
module HlsCommand {
  import opened Jobs
  import opened Text
  import opened Hls
  import FilterGraph

  /** Any encoder name other than nvenc is treated as CPU. */
  datatype Encoder = CPU | NVENC(preset: string)

  /** An option with its value, or a bare switch. */
  datatype Item = Setting(flag: string, value: string) | Overwrite

  /* ---- what is written ---- */

  function Words(item: Item): seq<string> {
    match item
    case Setting(flag, value) => [flag, value]
    case Overwrite => ["-y"]
  }

  function Flat(items: seq<Item>): seq<string>
    decreases |items|
  {
    if |items| == 0 then []
    else
      var n := |items| - 1;
      Flat(items[..n]) + Words(items[n])
  }

  /** The options that apply to one stream each. */
  datatype PerStream = VideoCodec | VideoRate | AudioCodec | AudioRate

  function Prefix(option: PerStream): string {
    match option
    case VideoCodec => "-c:v:"
    case VideoRate => "-b:v:"
    case AudioCodec => "-c:a:"
    case AudioRate => "-b:a:"
  }

  /** An option as it applies to output stream `i`. */
  function Nth(option: PerStream, i: nat): string {
    Prefix(option) + Decimal(i)
  }

  function CodecOptions(encoder: Encoder): seq<Item> {
    match encoder
    case NVENC(preset) =>
      [Setting("-preset", preset), Setting("-tune", "hq"), Setting("-rc", "vbr"), Setting("-cq", "23")]
    case CPU =>
      [Setting("-preset", "fast"), Setting("-crf", "23")]
  }

  function Codec(encoder: Encoder): string {
    if encoder.NVENC? then "h264_nvenc" else "libx264"
  }

  function MapItems(i: nat, hasAudio: bool): seq<Item> {
    [Setting("-map", "[" + FilterGraph.Scaled(i) + "]")] + (if hasAudio then [Setting("-map", "0:a:0?")] else [])
  }

  function VideoItems(i: nat, v: Variant, encoder: Encoder): seq<Item> {
    [Setting(Nth(VideoCodec, i), Codec(encoder))] + CodecOptions(encoder) + [Setting(Nth(VideoRate, i), v.videoBitrate)]
  }

  function AudioItems(i: nat, v: Variant, hasAudio: bool): seq<Item> {
    if hasAudio then [Setting(Nth(AudioCodec, i), "aac"), Setting(Nth(AudioRate, i), v.audioBitrate)] else []
  }

  function Streams(variants: seq<Variant>, hasAudio: bool, encoder: Encoder): seq<Item>
    decreases |variants|
  {
    if |variants| == 0 then []
    else
      var i := |variants| - 1;
      Streams(variants[..i], hasAudio, encoder) +
      (MapItems(i, hasAudio) + VideoItems(i, variants[i], encoder) + AudioItems(i, variants[i], hasAudio))
  }

  function StreamEntry(i: nat, name: string, hasAudio: bool): string {
    Join(["v:" + Decimal(i)] + (if hasAudio then ["a:" + Decimal(i)] else []) + ["name:" + name], ',')
  }

  function StreamEntries(variants: seq<Variant>, hasAudio: bool): seq<string> {
    seq(|variants|, i requires 0 <= i < |variants| => StreamEntry(i, variants[i].name, hasAudio))
  }

  function Head(input: string, variants: seq<Variant>): seq<Item> {
    [Setting("-i", input), Setting("-filter_complex", Join(FilterGraph.Printed(FilterGraph.Graph(variants)), ';'))]
  }

  function Tail(streamMap: string, segments: string): seq<Item> {
    [Setting("-f", "hls"), Setting("-hls_time", "6"), Setting("-hls_list_size", "0"),
     Setting("-hls_flags", "independent_segments"), Setting("-master_pl_name", "master.m3u8"),
     Setting("-var_stream_map", streamMap), Setting("-hls_segment_filename", segments), Overwrite]
  }

  function Items(input: string, segments: string, variants: seq<Variant>, hasAudio: bool, encoder: Encoder): seq<Item> {
    Head(input, variants) + Streams(variants, hasAudio, encoder) +
    Tail(Join(StreamEntries(variants, hasAudio), ' '), segments)
  }

  lemma {:induction false} FlatJoin(a: seq<Item>, b: seq<Item>)
    ensures Flat(a + b) == Flat(a) + Flat(b)
    decreases |b|
  {
    hide Words;
    if |b| == 0 {
      assert a + b == a;
    } else {
      var n := |b| - 1;
      FlatJoin(a, b[..n]);
      var all := a + b;
      assert |all| - 1 == |a| + n && all[..|a| + n] == a + b[..n] && all[|a| + n] == b[n];
      assert Flat(all) == Flat(a + b[..n]) + Words(b[n]);
      assert Flat(b) == Flat(b[..n]) + Words(b[n]);
    }
  }

  lemma FlatTwo(a: Item, b: Item)
    ensures Flat([a, b]) == Words(a) + Words(b)
  {
    assert [a, b][..1] == [a] && |[a][..0]| == 0;
    assert Flat([a]) == Words(a);
  }

  lemma FlatOne(a: Item)
    ensures Flat([a]) == Words(a)
  {
    assert |[a][..0]| == 0;
  }

  method AppendVideoArgs(args: seq<string>, streamIdx: nat, v: Variant, encoder: Encoder) returns (longer: seq<string>)
    ensures longer == args + Flat(VideoItems(streamIdx, v, encoder))
  {
    hide Decimal;
    var si := Decimal(streamIdx);
    match encoder
    case NVENC(p) =>
      longer := args + ["-c:v:" + si, "h264_nvenc", "-preset", p, "-tune", "hq", "-rc", "vbr", "-cq", "23",
                        "-b:v:" + si, v.videoBitrate];
      FlatVideo(streamIdx, v, encoder);
    case CPU =>
      longer := args + ["-c:v:" + si, "libx264", "-preset", "fast", "-crf", "23", "-b:v:" + si, v.videoBitrate];
      FlatVideo(streamIdx, v, encoder);
  }

  lemma FlatVideo(i: nat, v: Variant, encoder: Encoder)
    ensures Flat(VideoItems(i, v, encoder)) ==
            match encoder
            case NVENC(p) =>
              [Nth(VideoCodec, i), "h264_nvenc", "-preset", p, "-tune", "hq", "-rc", "vbr", "-cq", "23",
                  Nth(VideoRate, i), v.videoBitrate]
            case CPU =>
              [Nth(VideoCodec, i), "libx264", "-preset", "fast", "-crf", "23", Nth(VideoRate, i), v.videoBitrate]
  {
    hide Nth, Flat;
    var codec, rate := Setting(Nth(VideoCodec, i), Codec(encoder)), Setting(Nth(VideoRate, i), v.videoBitrate);
    var options := CodecOptions(encoder);
    FlatJoin([codec] + options, [rate]);
    FlatJoin([codec], options);
    FlatOne(codec);
    FlatOne(rate);
    if encoder.NVENC? {
      assert options == [options[0], options[1]] + [options[2], options[3]];
      FlatJoin([options[0], options[1]], [options[2], options[3]]);
      FlatTwo(options[0], options[1]);
      FlatTwo(options[2], options[3]);
    } else {
      FlatTwo(options[0], options[1]);
    }
  }

  /** The argument list as the loop appends to it. */
  method SingleCommandArgs(input: string, segments: string, output: string, variants: seq<Variant>, hasAudio: bool,
      encoder: Encoder)
    returns (args: seq<string>)
    requires |variants| > 0
    ensures args == Flat(Items(input, segments, variants, hasAudio, encoder)) + [output]
  {
    hide StreamEntry, Nth, Decimal, FilterGraph.Scaled, VideoItems, Flat, FilterGraph.Printed, FilterGraph.Graph;
    args := ["-i", input];
    var filterComplex := FilterGraph.FilterComplex(variants);
    args := args + ["-filter_complex", filterComplex];
    var head := Head(input, variants);
    FlatHead(input, variants, hasAudio, encoder);
    var varStreamParts: seq<string> := [];
    var i := 0;
    while i < |variants|
      invariant 0 <= i <= |variants|
      invariant args == Flat(head + Streams(variants[..i], hasAudio, encoder))
      invariant varStreamParts == StreamEntries(variants, hasAudio)[..i]
    {
      var v := variants[i];
      ghost var before := args;
      args := args + ["-map", "[" + FilterGraph.Scaled(i) + "]"];
      if hasAudio {
        args := args + ["-map", "0:a:0?"];
      }
      FlatMaps(i, hasAudio);
      assert args == before + Flat(MapItems(i, hasAudio));
      args := AppendVideoArgs(args, i, v, encoder);
      if hasAudio {
        args := args + ["-c:a:" + Decimal(i), "aac", "-b:a:" + Decimal(i), v.audioBitrate];
        varStreamParts := varStreamParts + ["v:" + Decimal(i) + "," + ("a:" + Decimal(i) + "," + ("name:" + v.name))];
      } else {
        varStreamParts := varStreamParts + ["v:" + Decimal(i) + "," + ("name:" + v.name)];
      }
      PrintEntry(i, v.name, hasAudio);
      assert varStreamParts[i] == StreamEntry(i, v.name, hasAudio);
      FlatAudio(i, v, hasAudio);
      FlatStream(head, variants, i, hasAudio, encoder);
      i := i + 1;
    }
    assert variants[..i] == variants;
    assert varStreamParts == StreamEntries(variants, hasAudio);
    var streamMap := Join(varStreamParts, ' ');
    args := args + ["-f", "hls", "-hls_time", "6", "-hls_list_size", "0", "-hls_flags", "independent_segments",
                    "-master_pl_name", "master.m3u8", "-var_stream_map", streamMap, "-hls_segment_filename",
                        segments, "-y",
                    output];
    FlatTail(streamMap, segments);
    FlatJoin(head + Streams(variants, hasAudio, encoder), Tail(streamMap, segments));
  }

  lemma FlatMaps(i: nat, hasAudio: bool)
    ensures Flat(MapItems(i, hasAudio)) ==
            ["-map", "[" + FilterGraph.Scaled(i) + "]"] + (if hasAudio then ["-map", "0:a:0?"] else [])
  {
    hide Flat, FilterGraph.Scaled;
    var video := Setting("-map", "[" + FilterGraph.Scaled(i) + "]");
    FlatOne(video);
    if hasAudio {
      FlatTwo(video, Setting("-map", "0:a:0?"));
      assert MapItems(i, hasAudio) == [video, Setting("-map", "0:a:0?")];
    } else {
      assert MapItems(i, hasAudio) == [video];
    }
  }

  lemma FlatAudio(i: nat, v: Variant, hasAudio: bool)
    ensures Flat(AudioItems(i, v, hasAudio)) ==
            if hasAudio then ["-c:a:" + Decimal(i), "aac", "-b:a:" + Decimal(i), v.audioBitrate] else []
  {
    hide Decimal;
    if hasAudio {
      FlatTwo(Setting(Nth(AudioCodec, i), "aac"), Setting(Nth(AudioRate, i), v.audioBitrate));
    }
  }

  lemma FlatHead(input: string, variants: seq<Variant>, hasAudio: bool, encoder: Encoder)
    ensures var head := Head(input, variants);
      Flat(head + Streams(variants[..0], hasAudio, encoder)) == ["-i", input] + ["-filter_complex", head[1].value]
  {
    hide Flat, FilterGraph.Printed, FilterGraph.Graph;
    var head := Head(input, variants);
    FlatTwo(head[0], head[1]);
    assert |variants[..0]| == 0;
    assert head + Streams(variants[..0], hasAudio, encoder) == [head[0], head[1]];
  }

  lemma FlatStream(head: seq<Item>, variants: seq<Variant>, i: nat, hasAudio: bool, encoder: Encoder)
    requires i < |variants|
    ensures Flat(head + Streams(variants[..i + 1], hasAudio, encoder)) ==
            Flat(head + Streams(variants[..i], hasAudio, encoder)) + Flat(MapItems(i, hasAudio)) +
            Flat(VideoItems(i, variants[i], encoder)) + Flat(AudioItems(i, variants[i], hasAudio))
  {
    hide Flat, MapItems, VideoItems, AudioItems;
    var maps, video, audio := MapItems(i, hasAudio), VideoItems(i, variants[i], encoder), AudioItems(i,
        variants[i], hasAudio);
    assert variants[..i + 1][..i] == variants[..i];
    var before := head + Streams(variants[..i], hasAudio, encoder);
    assert head + Streams(variants[..i + 1], hasAudio, encoder) == before + maps + video + audio;
    FlatJoin(before + maps + video, audio);
    FlatJoin(before + maps, video);
    FlatJoin(before, maps);
  }

  lemma FlatTail(streamMap: string, segments: string)
    ensures Flat(Tail(streamMap, segments)) ==
            ["-f", "hls", "-hls_time", "6", "-hls_list_size", "0", "-hls_flags", "independent_segments",
             "-master_pl_name", "master.m3u8", "-var_stream_map", streamMap, "-hls_segment_filename", segments, "-y"]
  {
    hide Flat;
    var t := Tail(streamMap, segments);
    assert t == [t[0], t[1]] + [t[2], t[3]] + [t[4], t[5]] + [t[6], t[7]];
    FlatTwo(t[0], t[1]);
    FlatTwo(t[2], t[3]);
    FlatTwo(t[4], t[5]);
    FlatTwo(t[6], t[7]);
    FlatJoin([t[0], t[1]] + [t[2], t[3]] + [t[4], t[5]], [t[6], t[7]]);
    FlatJoin([t[0], t[1]] + [t[2], t[3]], [t[4], t[5]]);
    FlatJoin([t[0], t[1]], [t[2], t[3]]);
  }

  lemma PrintEntry(i: nat, name: string, hasAudio: bool)
    ensures StreamEntry(i, name, hasAudio) ==
            "v:" + Decimal(i) + "," + ((if hasAudio then "a:" + Decimal(i) + "," else "") + ("name:" + name))
  {
    hide Decimal;
    var v, a, n := "v:" + Decimal(i), "a:" + Decimal(i), "name:" + name;
    assert Join([n], ',') == n;
    if hasAudio {
      assert [v, a, n][1..] == [a, n] && [a, n][1..] == [n];
      assert Join([a, n], ',') == a + [','] + n;
      assert Join([v, a, n], ',') == v + [','] + (a + [','] + n);
      assert ["v:" + Decimal(i)] + ["a:" + Decimal(i)] + ["name:" + name] == [v, a, n];
      assert "," == [','];
    } else {
      assert [v, n][1..] == [n];
      assert Join([v, n], ',') == v + [','] + n;
      assert ["v:" + Decimal(i)] + [] + ["name:" + name] == [v, n];
    }
  }

  /* ---- what is read ---- */

  /** An option takes the next argument as its value, -y takes none, and anything else names an
      output file; an option at the very end has no value. */
  function Read(args: seq<string>): Option<(seq<Item>, seq<string>)>
    decreases |args|
  {
    if |args| == 0 then Some(([], []))
    else if args[0] == "-y" then
      match Read(args[1..])
      case None => None
      case Some((items, files)) => Some(([Overwrite] + items, files))
    else if |args[0]| > 0 && args[0][0] == '-' then
      if |args| < 2 then None
      else
        match Read(args[2..])
        case None => None
        case Some((items, files)) => Some(([Setting(args[0], args[1])] + items, files))
    else
      match Read(args[1..])
      case None => None
      case Some((items, files)) => Some((items, [args[0]] + files))
  }

  predicate Readable(item: Item) {
    item.Setting? ==> |item.flag| > 0 && item.flag[0] == '-' && item.flag != "-y"
  }

  predicate AFile(name: string) {
    |name| == 0 || name[0] != '-'
  }

  lemma ReadWords(item: Item, rest: seq<string>, more: seq<Item>, files: seq<string>)
    requires Readable(item) && Read(rest) == Some((more, files))
    ensures Read(Words(item) + rest) == Some(([item] + more, files))
  {
    var all := Words(item) + rest;
    if item.Setting? {
      assert all[0] == item.flag && all[1] == item.value && all[2..] == rest;
    } else {
      assert all[0] == "-y" && all[1..] == rest;
    }
  }

  lemma {:induction false} ReadFlat(items: seq<Item>, rest: seq<string>, more: seq<Item>, files: seq<string>)
    requires forall item <- items :: Readable(item)
    requires Read(rest) == Some((more, files))
    ensures Read(Flat(items) + rest) == Some((items + more, files))
    decreases |items|
  {
    hide Read, Readable, Words;
    if |items| == 0 {
      assert Flat(items) + rest == rest;
      assert items + more == more;
    } else {
      var n := |items| - 1;
      var words := Words(items[n]);
      assert Readable(items[n]);
      ReadWords(items[n], rest, more, files);
      ReadFlat(items[..n], words + rest, [items[n]] + more, files);
      assert Flat(items) + rest == Flat(items[..n]) + (words + rest);
      assert items[..n] + ([items[n]] + more) == items + more;
    }
  }

  /** ffmpeg reads back exactly the intended options and the one output pattern, unless that
      pattern looks like an option. */
  lemma CommandRoundTrip(input: string, segments: string, output: string, variants: seq<Variant>, hasAudio: bool,
      encoder: Encoder)
    ensures var items := Items(input, segments, variants, hasAudio, encoder);
      Read(Flat(items) + [output]) == Some((items, [output])) <==> AFile(output)
  {
    var items := Items(input, segments, variants, hasAudio, encoder);
    AllReadable(input, segments, variants, hasAudio, encoder);
    if AFile(output) {
      ReadFile(output);
      ReadFlat(items, [output], [], [output]);
      assert items + [] == items;
    } else {
      ReadFails(items, output);
    }
  }

  lemma ReadFile(output: string)
    requires AFile(output)
    ensures Read([output]) == Some(([], [output]))
  {
    var rest := [output][1..];
    assert |rest| == 0 && Read(rest) == Some(([], []));
    assert output != "-y" by {
      assert "-y"[0] == '-';
    }
    assert [output] + [] == [output];
  }

  lemma {:induction false} FilesAreFiles(args: seq<string>)
    requires Read(args).Some?
    ensures forall name <- Read(args).value.1 :: AFile(name)
    decreases |args|
  {
    if |args| == 0 {
    } else if args[0] == "-y" {
      FilesAreFiles(args[1..]);
    } else if |args[0]| > 0 && args[0][0] == '-' {
      FilesAreFiles(args[2..]);
    } else {
      FilesAreFiles(args[1..]);
    }
  }

  lemma ReadFails(items: seq<Item>, output: string)
    requires !AFile(output)
    ensures Read(Flat(items) + [output]) != Some((items, [output]))
  {
    var args := Flat(items) + [output];
    assert output in [output];
    if Read(args).Some? {
      FilesAreFiles(args);
    }
  }

  lemma NthReadable(option: PerStream, i: nat, value: string)
    ensures Readable(Setting(Nth(option, i), value))
  {
    hide Decimal;
    assert Nth(option, i)[1] != 'y';
  }

  lemma CodecReadable(encoder: Encoder)
    ensures forall item <- CodecOptions(encoder) :: Readable(item)
  {
    var options := CodecOptions(encoder);
    forall item | item in options
      ensures Readable(item)
    {
      var k :| 0 <= k < |options| && options[k] == item;
      assert k == 0 || k == 1 || k == 2 || k == 3;
    }
  }

  lemma OptionsReadable(i: nat, v: Variant, hasAudio: bool, encoder: Encoder)
    ensures forall item <- MapItems(i, hasAudio) + VideoItems(i, v, encoder) +
        AudioItems(i, v, hasAudio) :: Readable(item)
  {
    hide Nth, CodecOptions, FilterGraph.Scaled, Readable, Codec;
    NthReadable(VideoCodec, i, Codec(encoder));
    NthReadable(VideoRate, i, v.videoBitrate);
    NthReadable(AudioCodec, i, "aac");
    NthReadable(AudioRate, i, v.audioBitrate);
    CodecReadable(encoder);
    MapReadable("[" + FilterGraph.Scaled(i) + "]");
    MapReadable("0:a:0?");
  }

  lemma MapReadable(value: string)
    ensures Readable(Setting("-map", value))
  {
    assert "-map"[1] == 'm';
  }

  lemma {:induction false} StreamsReadable(variants: seq<Variant>, hasAudio: bool, encoder: Encoder)
    ensures forall item <- Streams(variants, hasAudio, encoder) :: Readable(item)
    decreases |variants|
  {
    hide MapItems, VideoItems, AudioItems, Readable;
    if |variants| > 0 {
      var i := |variants| - 1;
      StreamsReadable(variants[..i], hasAudio, encoder);
      OptionsReadable(i, variants[i], hasAudio, encoder);
    }
  }

  lemma AllReadable(input: string, segments: string, variants: seq<Variant>, hasAudio: bool, encoder: Encoder)
    ensures forall item <- Items(input, segments, variants, hasAudio, encoder) :: Readable(item)
  {
    hide Streams, FilterGraph.Printed, FilterGraph.Graph, StreamEntries, Join;
    StreamsReadable(variants, hasAudio, encoder);
  }

  /* ---- looking options up ---- */

  /** The values an option is given, in order. */
  function Values(items: seq<Item>, flag: string): (values: seq<string>)
    ensures |values| > 0 ==> exists item <- items :: item.Setting? && item.flag == flag
    decreases |items|
  {
    if |items| == 0 then []
    else
      var n := |items| - 1;
      Values(items[..n], flag) + Given(items[n], flag)
  }

  function Given(item: Item, flag: string): seq<string> {
    if item.Setting? && item.flag == flag then [item.value] else []
  }

  lemma ValuesPush(items: seq<Item>, item: Item, flag: string)
    ensures Values(items + [item], flag) == Values(items, flag) + Given(item, flag)
  {
    assert (items + [item])[..|items|] == items;
  }

  lemma {:induction false} ValuesJoin(a: seq<Item>, b: seq<Item>, flag: string)
    ensures Values(a + b, flag) == Values(a, flag) + Values(b, flag)
    decreases |b|
  {
    hide Values, Given;
    if |b| == 0 {
      assert a + b == a && b == [];
      NoValues(b, flag);
    } else {
      var n := |b| - 1;
      var last := b[n];
      ValuesJoin(a, b[..n], flag);
      ValuesPush(a + b[..n], last, flag);
      ValuesPush(b[..n], last, flag);
      assert a + b == a + b[..n] + [last] && b == b[..n] + [last];
    }
  }

  lemma ValuesOne(item: Item, flag: string)
    ensures Values([item], flag) == if item.Setting? && item.flag == flag then [item.value] else []
  {
    assert |[item][..0]| == 0;
  }

  predicate OfOneStream(flag: string) {
    |flag| > 2 && flag[2] == ':'
  }

  lemma NthApart(a: PerStream, i: nat, b: PerStream, j: nat)
    ensures OfOneStream(Nth(a, i))
    ensures Nth(a, i) == Nth(b, j) <==> a == b && i == j
  {
    var s, t := Nth(a, i), Nth(b, j);
    assert s[..5] == Prefix(a) && s[5..] == Decimal(i);
    assert t[..5] == Prefix(b) && t[5..] == Decimal(j);
    if s == t {
      assert Prefix(a)[1] == Prefix(b)[1] && Prefix(a)[3] == Prefix(b)[3];
      DecimalInjective(i, j);
    }
  }

  /** What stream `i` is asked for. */
  function Wanted(option: PerStream, v: Variant, hasAudio: bool, encoder: Encoder): seq<string> {
    match option
    case VideoCodec => [if encoder.NVENC? then "h264_nvenc" else "libx264"]
    case VideoRate => [v.videoBitrate]
    case AudioCodec => if hasAudio then ["aac"] else []
    case AudioRate => if hasAudio then [v.audioBitrate] else []
  }

  lemma NoValues(items: seq<Item>, flag: string)
    requires forall item <- items :: item.Setting? ==> item.flag != flag
    ensures Values(items, flag) == []
  {
  }

  lemma OneStreamValues(i: nat, v: Variant, hasAudio: bool, encoder: Encoder, option: PerStream, j: nat)
    ensures Values(MapItems(i, hasAudio) + VideoItems(i, v, encoder) + AudioItems(i, v, hasAudio), Nth(option, j)) ==
            if i == j then Wanted(option, v, hasAudio, encoder) else []
  {
    hide Nth, Values, FilterGraph.Scaled;
    var flag := Nth(option, j);
    var maps, video, audio := MapItems(i, hasAudio), VideoItems(i, v, encoder), AudioItems(i, v, hasAudio);
    ValuesJoin(maps + video, audio, flag);
    ValuesJoin(maps, video, flag);
    NthApart(option, j, option, j);
    PlainOptions(encoder);
    assert !OfOneStream("-map");
    NoValues(maps, flag);
    VideoValues(i, v, encoder, option, j);
    AudioValues(i, v, hasAudio, option, j);
  }

  lemma PlainOptions(encoder: Encoder)
    ensures forall item <- CodecOptions(encoder) :: item.Setting? && !OfOneStream(item.flag) && item.flag != "-map"
  {
    forall item | item in CodecOptions(encoder)
      ensures item.Setting? && !OfOneStream(item.flag) && item.flag != "-map"
    {
      assert "-map"[1] == 'm';
      var options := CodecOptions(encoder);
      var k :| 0 <= k < |options| && options[k] == item;
      assert k == 0 || k == 1 || k == 2 || k == 3;
    }
  }

  lemma VideoValues(i: nat, v: Variant, encoder: Encoder, option: PerStream, j: nat)
    ensures Values(VideoItems(i, v, encoder), Nth(option, j)) ==
            if i != j then [] else if option.VideoCodec? then [Codec(encoder)]
                else if option.VideoRate? then [v.videoBitrate] else []
  {
    hide Nth, Values;
    var flag := Nth(option, j);
    var codec, rate := Setting(Nth(VideoCodec, i), Codec(encoder)), Setting(Nth(VideoRate, i), v.videoBitrate);
    NthApart(option, j, VideoCodec, i);
    NthApart(option, j, VideoRate, i);
    ValuesJoin([codec] + CodecOptions(encoder), [rate], flag);
    ValuesJoin([codec], CodecOptions(encoder), flag);
    PlainOptions(encoder);
    NoValues(CodecOptions(encoder), flag);
    ValuesOne(codec, flag);
    ValuesOne(rate, flag);
  }

  lemma AudioValues(i: nat, v: Variant, hasAudio: bool, option: PerStream, j: nat)
    ensures Values(AudioItems(i, v, hasAudio), Nth(option, j)) ==
            if i != j || !hasAudio then [] else if option.AudioCodec? then ["aac"]
                else if option.AudioRate? then [v.audioBitrate] else []
  {
    hide Nth, Values;
    var flag := Nth(option, j);
    var codec, rate := Setting(Nth(AudioCodec, i), "aac"), Setting(Nth(AudioRate, i), v.audioBitrate);
    NthApart(option, j, AudioCodec, i);
    NthApart(option, j, AudioRate, i);
    if hasAudio {
      ValuesJoin([codec], [rate], flag);
      ValuesOne(codec, flag);
      ValuesOne(rate, flag);
      assert AudioItems(i, v, hasAudio) == [codec] + [rate];
    } else {
      NoValues([], flag);
    }
  }

  lemma {:induction false} StreamValues(variants: seq<Variant>, hasAudio: bool, encoder: Encoder, option: PerStream,
      j: nat)
    ensures Values(Streams(variants, hasAudio, encoder), Nth(option, j)) ==
            if j < |variants| then Wanted(option, variants[j], hasAudio, encoder) else []
    decreases |variants|
  {
    hide Nth, Values, MapItems, VideoItems, AudioItems, Wanted;
    var flag := Nth(option, j);
    if |variants| == 0 {
      NoValues([], flag);
    } else {
      var i := |variants| - 1;
      StreamValues(variants[..i], hasAudio, encoder, option, j);
      OneStreamValues(i, variants[i], hasAudio, encoder, option, j);
      ValuesJoin(Streams(variants[..i], hasAudio, encoder),
        MapItems(i, hasAudio) + VideoItems(i, variants[i], encoder) + AudioItems(i, variants[i], hasAudio), flag);
    }
  }

  /** The -map targets in order: each scaled link, followed by the source's audio when it has any. */
  function Maps(n: nat, hasAudio: bool): seq<string>
    decreases n
  {
    if n == 0 then []
    else Maps(n - 1, hasAudio) + ["[" + FilterGraph.Scaled(n - 1) + "]"] + if hasAudio then ["0:a:0?"] else []
  }

  lemma {:induction false} StreamMaps(variants: seq<Variant>, hasAudio: bool, encoder: Encoder)
    ensures Values(Streams(variants, hasAudio, encoder), "-map") == Maps(|variants|, hasAudio)
    decreases |variants|
  {
    hide Values, VideoItems, AudioItems, FilterGraph.Scaled;
    if |variants| == 0 {
      NoValues([], "-map");
    } else {
      var i := |variants| - 1;
      StreamMaps(variants[..i], hasAudio, encoder);
      var maps, video, audio := MapItems(i, hasAudio), VideoItems(i, variants[i], encoder), AudioItems(i,
          variants[i], hasAudio);
      ValuesJoin(Streams(variants[..i], hasAudio, encoder), maps + video + audio, "-map");
      ValuesJoin(maps + video, audio, "-map");
      ValuesJoin(maps, video, "-map");
      OthersMapNothing(i, variants[i], hasAudio, encoder);
      var link := Setting("-map", "[" + FilterGraph.Scaled(i) + "]");
      ValuesOne(link, "-map");
      if hasAudio {
        ValuesOne(Setting("-map", "0:a:0?"), "-map");
        ValuesJoin([link], [Setting("-map", "0:a:0?")], "-map");
      } else {
        assert maps == [link];
      }
    }
  }

  lemma OthersMapNothing(i: nat, v: Variant, hasAudio: bool, encoder: Encoder)
    ensures Values(VideoItems(i, v, encoder), "-map") == []
    ensures Values(AudioItems(i, v, hasAudio), "-map") == []
  {
    hide Values, Nth;
    PlainOptions(encoder);
    forall option: PerStream
      ensures Nth(option, i) != "-map"
    {
      NthApart(option, i, option, i);
      assert !OfOneStream("-map");
    }
    NoValues(VideoItems(i, v, encoder), "-map");
    NoValues(AudioItems(i, v, hasAudio), "-map");
  }

  lemma EdgesPlain(input: string, streamMap: string, segments: string, variants: seq<Variant>)
    ensures forall item <- Head(input, variants) + Tail(streamMap, segments) ::
              item.Setting? ==> !OfOneStream(item.flag) && item.flag != "-map"
  {
    var items := Head(input, variants) + Tail(streamMap, segments);
    forall item | item in items && item.Setting?
      ensures !OfOneStream(item.flag) && item.flag != "-map"
    {
      var k :| 0 <= k < |items| && items[k] == item;
      assert k == 0 || k == 1 || k == 2 || k == 3 || k == 4 || k == 5 || k == 6 || k == 7 || k == 8;
    }
  }

  /** What stream `j` is asked for, option by option. */
  lemma OptionOfStream(input: string, segments: string, variants: seq<Variant>, hasAudio: bool, encoder: Encoder,
      option: PerStream, j: nat)
    ensures var items := Items(input, segments, variants, hasAudio, encoder);
      && Values(items, Nth(option, j)) == (if j < |variants|
          then Wanted(option, variants[j], hasAudio, encoder) else [])
      && Values(items, "-map") == Maps(|variants|, hasAudio)
  {
    hide Values, Nth, Streams, Head, Tail, Maps, Wanted;
    var streamMap := Join(StreamEntries(variants, hasAudio), ' ');
    var head, streams, tail := Head(input, variants), Streams(variants, hasAudio, encoder), Tail(streamMap, segments);
    EdgesPlain(input, streamMap, segments, variants);
    NthApart(option, j, option, j);
    forall flag | flag == Nth(option, j) || flag == "-map"
      ensures Values(head + streams + tail, flag) == Values(streams, flag)
    {
      ValuesJoin(head + streams, tail, flag);
      ValuesJoin(head, streams, flag);
      NoValues(head, flag);
      NoValues(tail, flag);
    }
    StreamValues(variants, hasAudio, encoder, option, j);
    StreamMaps(variants, hasAudio, encoder);
  }

  /** Stream `j` gets exactly variant `j`'s codec, bitrate and, if the source has audio, audio
      options, streams that do not exist get none, and the scaled links are mapped once each in order. */
  lemma StreamOptions(input: string, segments: string, variants: seq<Variant>, hasAudio: bool, encoder: Encoder,
      j: nat)
    ensures var items := Items(input, segments, variants, hasAudio, encoder);
      var codecs, rates := Values(items, "-c:v:" + Decimal(j)), Values(items, "-b:v:" + Decimal(j));
      var audioCodecs, audioRates := Values(items, "-c:a:" + Decimal(j)), Values(items, "-b:a:" + Decimal(j));
      && (j >= |variants| ==> codecs == rates == audioCodecs == audioRates == [])
      && (j < |variants| ==>
            && codecs == [if encoder.NVENC? then "h264_nvenc" else "libx264"]
            && rates == [variants[j].videoBitrate]
            && audioCodecs == (if hasAudio then ["aac"] else [])
            && audioRates == (if hasAudio then [variants[j].audioBitrate] else []))
      && Values(items, "-map") == Maps(|variants|, hasAudio)
  {
    hide Items, Values, Maps, Decimal;
    OptionOfStream(input, segments, variants, hasAudio, encoder, VideoCodec, j);
    OptionOfStream(input, segments, variants, hasAudio, encoder, VideoRate, j);
    OptionOfStream(input, segments, variants, hasAudio, encoder, AudioCodec, j);
    OptionOfStream(input, segments, variants, hasAudio, encoder, AudioRate, j);
  }

  /** Each scaled link is mapped exactly once, in order. */
  lemma {:induction false} MapsInOrder(n: nat, hasAudio: bool, i: nat)
    requires i < n
    ensures var maps, step := Maps(n, hasAudio), if hasAudio then 2 else 1;
      && |maps| == step * n && maps[step * i] == "[" + FilterGraph.Scaled(i) + "]"
      && (hasAudio ==> maps[step * i + 1] == "0:a:0?")
    decreases n
  {
    hide FilterGraph.Scaled;
    if i < n - 1 {
      MapsInOrder(n - 1, hasAudio, i);
    } else if n > 1 {
      MapsInOrder(n - 1, hasAudio, 0);
    }
  }

  /* ---- options given once, for all streams ---- */

  function Edges(input: string, variants: seq<Variant>, streamMap: string, segments: string): seq<Item> {
    Head(input, variants) + Tail(streamMap, segments)
  }

  /** Neither -map nor an option of one stream or of a codec. */
  predicate OfAllStreams(flag: string) {
    !OfOneStream(flag) && (|flag| < 3 || |flag| > 7)
  }

  lemma CodecFlags(encoder: Encoder)
    ensures forall item <- CodecOptions(encoder) :: item.Setting? && !OfAllStreams(item.flag)
  {
    var options := CodecOptions(encoder);
    forall item | item in options
      ensures item.Setting? && !OfAllStreams(item.flag)
    {
      var k :| 0 <= k < |options| && options[k] == item;
      assert k == 0 || k == 1 || k == 2 || k == 3;
    }
  }

  lemma OneStreamGivesNone(i: nat, v: Variant, hasAudio: bool, encoder: Encoder)
    ensures forall item <- MapItems(i, hasAudio) + VideoItems(i, v, encoder) + AudioItems(i, v, hasAudio) ::
              item.Setting? ==> !OfAllStreams(item.flag)
  {
    hide Nth, FilterGraph.Scaled, CodecOptions, Codec, OfOneStream;
    CodecFlags(encoder);
    forall option: PerStream
      ensures OfOneStream(Nth(option, i))
    {
      NthApart(option, i, option, i);
    }
  }

  lemma {:induction false} StreamsGiveNone(variants: seq<Variant>, hasAudio: bool, encoder: Encoder, flag: string)
    requires OfAllStreams(flag)
    ensures Values(Streams(variants, hasAudio, encoder), flag) == []
    decreases |variants|
  {
    hide Values, OfAllStreams, MapItems, VideoItems, AudioItems;
    if |variants| == 0 {
      NoValues([], flag);
    } else {
      var i := |variants| - 1;
      var v := variants[i];
      var items := MapItems(i, hasAudio) + VideoItems(i, v, encoder) + AudioItems(i, v, hasAudio);
      StreamsGiveNone(variants[..i], hasAudio, encoder, flag);
      OneStreamGivesNone(i, v, hasAudio, encoder);
      NoValues(items, flag);
      ValuesJoin(Streams(variants[..i], hasAudio, encoder), items, flag);
    }
  }

  lemma EdgeFlags(input: string, variants: seq<Variant>, streamMap: string, segments: string, k: nat)
    requires k < 9
    ensures var e := Edges(input, variants, streamMap, segments);
      && |e| == 10 && e[9] == Overwrite && e[k].Setting? && OfAllStreams(e[k].flag)
      && forall j :: 0 <= j < 9 && j != k ==> e[j].Setting? && e[j].flag != e[k].flag
  {
    hide FilterGraph.Printed, FilterGraph.Graph, Join;
    var e := Edges(input, variants, streamMap, segments);
    forall j | 0 <= j < 9 && j != k
      ensures e[j].Setting? && e[j].flag != e[k].flag
    {
      assert |e[j].flag| != |e[k].flag| || e[j].flag[1] != e[k].flag[1];
    }
  }

  lemma SoleValue(items: seq<Item>, k: nat)
    requires k < |items| && items[k].Setting?
    requires forall j :: 0 <= j < |items| && j != k && items[j].Setting? ==> items[j].flag != items[k].flag
    ensures Values(items, items[k].flag) == [items[k].value]
  {
    hide Values;
    var flag := items[k].flag;
    assert items == items[..k] + [items[k]] + items[k + 1..];
    NoValues(items[..k], flag);
    NoValues(items[k + 1..], flag);
    ValuesOne(items[k], flag);
    ValuesJoin(items[..k] + [items[k]], items[k + 1..], flag);
    ValuesJoin(items[..k], [items[k]], flag);
  }

  lemma EdgeValue(input: string, segments: string, variants: seq<Variant>, hasAudio: bool, encoder: Encoder, k: nat)
    requires k < 9
    ensures var e := Edges(input, variants, Join(StreamEntries(variants, hasAudio), ' '), segments);
      && |e| == 10 && e[k].Setting?
      && Values(Items(input, segments, variants, hasAudio, encoder), e[k].flag) == [e[k].value]
  {
    hide Values, Streams, Head, Tail, StreamEntries, Join, OfAllStreams;
    var streamMap := Join(StreamEntries(variants, hasAudio), ' ');
    var head, streams, tail := Head(input, variants), Streams(variants, hasAudio, encoder), Tail(streamMap, segments);
    var e := Edges(input, variants, streamMap, segments);
    EdgeFlags(input, variants, streamMap, segments, k);
    SoleValue(e, k);
    StreamsGiveNone(variants, hasAudio, encoder, e[k].flag);
    ValuesJoin(head, tail, e[k].flag);
    ValuesJoin(head + streams, tail, e[k].flag);
    ValuesJoin(head, streams, e[k].flag);
  }

  /** What holds for the whole command: its input, the HLS format with segments of 6 seconds that start
      on their own and a list that keeps them all, and the name of the master playlist. */
  lemma WholeCommandOptions(input: string, segments: string, variants: seq<Variant>, hasAudio: bool, encoder: Encoder)
    ensures var items := Items(input, segments, variants, hasAudio, encoder);
      && Values(items, "-i") == [input] && Values(items, "-f") == ["hls"]
      && Values(items, "-hls_time") == ["6"] && Values(items, "-hls_list_size") == ["0"]
      && Values(items, "-hls_flags") == ["independent_segments"]
      && Values(items, "-master_pl_name") == ["master.m3u8"]
      && Values(items, "-hls_segment_filename") == [segments]
  {
    hide Values, Items, FilterGraph.Printed, FilterGraph.Graph, StreamEntries, Join;
    EdgeValue(input, segments, variants, hasAudio, encoder, 0);
    EdgeValue(input, segments, variants, hasAudio, encoder, 2);
    EdgeValue(input, segments, variants, hasAudio, encoder, 3);
    EdgeValue(input, segments, variants, hasAudio, encoder, 4);
    EdgeValue(input, segments, variants, hasAudio, encoder, 5);
    EdgeValue(input, segments, variants, hasAudio, encoder, 6);
    EdgeValue(input, segments, variants, hasAudio, encoder, 8);
  }

  /** The filter graph and the stream map are each given once, and are what was printed. */
  lemma TextOptions(input: string, segments: string, variants: seq<Variant>, hasAudio: bool, encoder: Encoder)
    ensures var items := Items(input, segments, variants, hasAudio, encoder);
      && Values(items, "-filter_complex") == [Join(FilterGraph.Printed(FilterGraph.Graph(variants)), ';')]
      && Values(items, "-var_stream_map") == [Join(StreamEntries(variants, hasAudio), ' ')]
  {
    hide Values, Items, FilterGraph.Printed, FilterGraph.Graph, StreamEntries, Join;
    EdgeValue(input, segments, variants, hasAudio, encoder, 1);
    EdgeValue(input, segments, variants, hasAudio, encoder, 7);
  }

  /* ---- the stream map ---- */

  datatype Mapping = Mapping(video: nat, audio: Option<nat>, name: string)

  function ReadEntry(text: string): Option<Mapping> {
    var fields := Split(text, ',');
    var n := |fields|;
    if n != 2 && n != 3 then None
    else if !("v:" <= fields[0] && "name:" <= fields[n - 1] && (n == 3 ==> "a:" <= fields[1])) then None
    else
      var video, audio := ParseDecimal(fields[0][2..]), if n == 3 then ParseDecimal(fields[1][2..]) else Some(0);
      if video.None? || audio.None? then None
      else Some(Mapping(video.value, if n == 3 then audio else None, fields[n - 1][5..]))
  }

  function ReadEntries(entries: seq<string>): Option<seq<Mapping>>
    decreases |entries|
  {
    if |entries| == 0 then Some([])
    else
      match (ReadEntry(entries[0]), ReadEntries(entries[1..]))
      case (Some(m), Some(rest)) => Some([m] + rest)
      case _ => None
  }

  function ReadStreamMap(text: string): Option<seq<Mapping>> {
    ReadEntries(Split(text, ' '))
  }

  function Mappings(variants: seq<Variant>, hasAudio: bool): seq<Mapping> {
    seq(|variants|, i requires 0 <= i < |variants| =>
      Mapping(i, if hasAudio then Some(i) else None, variants[i].name))
  }

  predicate Separate(name: string) {
    ' ' !in name && ',' !in name
  }

  lemma ReadPrintedEntry(i: nat, name: string, hasAudio: bool)
    requires Separate(name)
    ensures ReadEntry(StreamEntry(i, name, hasAudio)) == Some(Mapping(i, if hasAudio then Some(i) else None, name))
    ensures ' ' !in StreamEntry(i, name, hasAudio)
  {
    hide Decimal, ParseDecimal, Split, Join;
    NotADigit(i, ',');
    NotADigit(i, ' ');
    var v, a, n := "v:" + Decimal(i), "a:" + Decimal(i), "name:" + name;
    var fields := [v] + (if hasAudio then [a] else []) + [n];
    SplitJoined(fields, ',');
    ParsePrinted(i);
    assert v[2..] == Decimal(i) && a[2..] == Decimal(i) && n[5..] == name;
    PrintEntry(i, name, hasAudio);
  }

  lemma {:induction false} ReadPrintedEntries(entries: seq<string>, mappings: seq<Mapping>)
    requires |entries| == |mappings|
    requires forall i :: 0 <= i < |entries| ==> ReadEntry(entries[i]) == Some(mappings[i])
    ensures ReadEntries(entries) == Some(mappings)
    decreases |entries|
  {
    hide ReadEntry;
    if |entries| > 0 {
      ReadPrintedEntries(entries[1..], mappings[1..]);
      assert mappings == [mappings[0]] + mappings[1..];
    }
  }

  lemma {:induction false} ReadNames(entries: seq<string>, i: nat)
    requires ReadEntries(entries).Some? && i < |ReadEntries(entries).value|
    requires forall e <- entries :: ' ' !in e
    ensures Separate(ReadEntries(entries).value[i].name)
    decreases |entries|
  {
    hide ParseDecimal, Split;
    if i > 0 {
      ReadNames(entries[1..], i - 1);
    } else {
      var e := entries[0];
      SplitKeeps(e, ',', ' ');
      var fields := Split(e, ',');
      var last := fields[|fields| - 1];
      assert last in fields;
      assert ReadEntry(e).value.name == last[5..];
    }
  }

  lemma {:induction false} SplitKeeps(s: string, sep: char, c: char)
    requires c !in s
    ensures forall p <- Split(s, sep) :: c !in p
    decreases |s|
  {
    if |s| > 0 {
      SplitKeeps(s[1..], sep, c);
    }
  }

  /** Entry `i` of the stream map carries index `i`, variant `i`'s name, and audio exactly when the
      source has it, if and only if no name holds a space or a comma. */
  lemma StreamMapRoundTrip(variants: seq<Variant>, hasAudio: bool)
    requires |variants| > 0
    ensures ReadStreamMap(Join(StreamEntries(variants, hasAudio), ' ')) == Some(Mappings(variants, hasAudio)) <==>
            forall v <- variants :: Separate(v.name)
  {
    hide StreamEntry, ReadEntry, ReadEntries, Split, Join, Separate;
    var entries, mappings := StreamEntries(variants, hasAudio), Mappings(variants, hasAudio);
    var text := Join(entries, ' ');
    if forall v <- variants :: Separate(v.name) {
      forall i | 0 <= i < |variants|
        ensures ReadEntry(entries[i]) == Some(mappings[i]) && ' ' !in entries[i]
      {
        ReadPrintedEntry(i, variants[i].name, hasAudio);
      }
      SplitJoined(entries, ' ');
      ReadPrintedEntries(entries, mappings);
    }
    if ReadStreamMap(text) == Some(mappings) {
      forall i | 0 <= i < |variants|
        ensures Separate(variants[i].name)
      {
        ReadNames(Split(text, ' '), i);
        assert mappings[i].name == variants[i].name;
      }
    }
  }

  lemma LadderNames()
    ensures forall v <- LADDER :: Separate(v.name) && Printable(v.name)
  {
    forall v | v in LADDER
      ensures Separate(v.name) && Printable(v.name)
    {
      var k :| 0 <= k < |LADDER| && LADDER[k] == v;
      assert k == 0 || k == 1 || k == 2 || k == 3 || k == 4;
    }
  }

  /** Whatever the source's height, what the service writes about its own qualities reads back. */
  lemma LadderReadsBack(sourceHeight: int, hasAudio: bool)
    ensures var selected := Selected(LADDER, sourceHeight);
      && ReadStreamMap(Join(StreamEntries(selected, hasAudio), ' ')) == Some(Mappings(selected, hasAudio))
      && ReadMaster(HEADER + Body(selected)) == Some(Master(3, Listing(selected)))
      && FilterGraph.ReadGraph(Join(FilterGraph.Printed(FilterGraph.Graph(selected)), ';')) ==
           Some(FilterGraph.Graph(selected))
  {
    hide Separate, Printable, Body, ReadMaster, ReadStreamMap, StreamEntries, Mappings, Listing, HEADER;
    hide FilterGraph.ReadGraph, FilterGraph.Printed, FilterGraph.Graph, Join;
    var selected := Selected(LADDER, sourceHeight);
    LadderAscends();
    SelectionIsPrefix(LADDER, sourceHeight);
    LadderNames();
    assert forall v <- selected :: v in LADDER;
    hide LADDER, Selected;
    StreamMapRoundTrip(selected, hasAudio);
    MasterPlaylistRoundTrip(selected);
    FilterGraph.GraphRoundTrip(selected);
  }
}
