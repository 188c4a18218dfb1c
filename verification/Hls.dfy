/** Which qualities are produced, and the master playlist that lists them. */
module Hls {
  import opened Jobs
  import opened Text

  datatype Variant = Variant(name: string, height: nat, videoBitrate: string, audioBitrate: string, bandwidth: nat)

  /** The supported resolutions in ascending order. */
  const LADDER: seq<Variant> := [
    Variant("240p", 240, "400k", "64k", 464000),
    Variant("360p", 360, "800k", "96k", 896000),
    Variant("480p", 480, "1400k", "128k", 1528000),
    Variant("720p", 720, "2800k", "128k", 2928000),
    Variant("1080p", 1080, "5000k", "192k", 5192000)]

  /* ---- selection ---- */

  /** A height of 0 stands for a failed probe. */
  predicate Suits(v: Variant, sourceHeight: int) {
    sourceHeight == 0 || v.height <= sourceHeight
  }

  predicate Ascending(ladder: seq<Variant>) {
    forall i, j :: 0 <= i < j < |ladder| ==> ladder[i].height < ladder[j].height
  }

  function Suitable(ladder: seq<Variant>, sourceHeight: int): seq<Variant>
    decreases |ladder|
  {
    if |ladder| == 0 then []
    else
      var n := |ladder| - 1;
      Suitable(ladder[..n], sourceHeight) + if Suits(ladder[n], sourceHeight) then [ladder[n]] else []
  }

  method SelectVariants(ladder: seq<Variant>, sourceHeight: int) returns (selected: seq<Variant>)
    requires |ladder| > 0
    ensures selected == Selected(ladder, sourceHeight)
  {
    selected := [];
    var k := 0;
    while k < |ladder|
      invariant 0 <= k <= |ladder|
      invariant selected == Suitable(ladder[..k], sourceHeight)
    {
      if sourceHeight == 0 || ladder[k].height <= sourceHeight {
        selected := selected + [ladder[k]];
      }
      assert ladder[..k + 1][..k] == ladder[..k];
      k := k + 1;
    }
    assert ladder[..k] == ladder;
    if |selected| == 0 {
      selected := ladder[..1];
    }
  }

  function Selected(ladder: seq<Variant>, sourceHeight: int): seq<Variant>
    requires |ladder| > 0
  {
    var suitable := Suitable(ladder, sourceHeight);
    if |suitable| == 0 then ladder[..1] else suitable
  }

  lemma {:induction false} SuitableIsPrefix(ladder: seq<Variant>, sourceHeight: int)
    requires Ascending(ladder)
    ensures var chosen := Suitable(ladder, sourceHeight);
      && chosen <= ladder
      && (forall i :: 0 <= i < |chosen| ==> Suits(ladder[i], sourceHeight))
      && (forall i :: |chosen| <= i < |ladder| ==> !Suits(ladder[i], sourceHeight))
    decreases |ladder|
  {
    if |ladder| > 0 {
      var n := |ladder| - 1;
      SuitableIsPrefix(ladder[..n], sourceHeight);
      var chosen := Suitable(ladder[..n], sourceHeight);
      if |chosen| < n {
        assert ladder[..n][|chosen|] == ladder[|chosen|];
        assert !Suits(ladder[|chosen|], sourceHeight);
        assert !Suits(ladder[n], sourceHeight);
      }
      assert ladder == ladder[..n] + [ladder[n]];
    }
  }

  /** On an ascending ladder the selection is a non-empty prefix: all of it if the height could not
      be probed (docs/claude/design-decisions.md says the lowest alone), otherwise exactly the
      variants no taller than the source, or the lowest alone if there is none. */
  lemma SelectionIsPrefix(ladder: seq<Variant>, sourceHeight: int)
    requires |ladder| > 0 && Ascending(ladder)
    ensures var chosen := Selected(ladder, sourceHeight);
      && 0 < |chosen| && chosen <= ladder
      && (sourceHeight == 0 ==> chosen == ladder)
      && (sourceHeight != 0 ==>
            && (forall i :: |chosen| <= i < |ladder| ==> ladder[i].height > sourceHeight)
            && ((forall i :: 0 <= i < |chosen| ==> chosen[i].height <= sourceHeight) ||
                (|chosen| == 1 && ladder[0].height > sourceHeight)))
  {
    SuitableIsPrefix(ladder, sourceHeight);
  }

  /** Each rung is named after its height, and needs the bandwidth of its two streams together. */
  predicate Consistent(v: Variant, videoKilobits: nat, audioKilobits: nat) {
    && v.name == Decimal(v.height) + "p"
    && v.videoBitrate == Decimal(videoKilobits) + "k" && v.audioBitrate == Decimal(audioKilobits) + "k"
    && v.bandwidth == 1000 * (videoKilobits + audioKilobits)
  }

  lemma LadderIsConsistent()
    ensures |LADDER| == 5
    ensures LADDER[0].height == 240 && Consistent(LADDER[0], 400, 64)
    ensures LADDER[1].height == 360 && Consistent(LADDER[1], 800, 96)
    ensures LADDER[2].height == 480 && Consistent(LADDER[2], 1400, 128)
    ensures LADDER[3].height == 720 && Consistent(LADDER[3], 2800, 128)
    ensures LADDER[4].height == 1080 && Consistent(LADDER[4], 5000, 192)
  {
    SmallNumerals();
    LargeNumerals();
    FourDigits();
    hide Decimal;
  }

  lemma SmallNumerals()
    ensures Decimal(64) == "64"
    ensures Decimal(96) == "96"
    ensures Decimal(128) == "128"
    ensures Decimal(192) == "192"
    ensures Decimal(240) == "240"
    ensures Decimal(360) == "360"
    ensures Decimal(400) == "400"
  {
  }

  lemma LargeNumerals()
    ensures Decimal(480) == "480"
    ensures Decimal(720) == "720"
    ensures Decimal(800) == "800"
  {
  }

  lemma FourDigits()
    ensures Decimal(1080) == "1080"
    ensures Decimal(1400) == "1400"
    ensures Decimal(2800) == "2800"
    ensures Decimal(5000) == "5000"
  {
    assert Decimal(108) == "108" && Decimal(140) == "140" && Decimal(280) == "280" && Decimal(500) == "500";
    assert Decimal(1080) == Decimal(108) + "0" && Decimal(1400) == Decimal(140) + "0";
    assert Decimal(2800) == Decimal(280) + "0" && Decimal(5000) == Decimal(500) + "0";
  }

  lemma LadderAscends()
    ensures Ascending(LADDER)
  {
  }

  /* ---- the master playlist ---- */

  const HEADER := "#EXTM3U\n#EXT-X-VERSION:3\n\n"

  function InfoLine(v: Variant): string {
    "#EXT-X-STREAM-INF:" + ("BANDWIDTH=" + Decimal(v.bandwidth))
  }

  function UriLine(v: Variant): string {
    v.name + "/playlist.m3u8"
  }

  function Entry(v: Variant): string {
    InfoLine(v) + ['\n'] + (UriLine(v) + ['\n'])
  }

  function Body(variants: seq<Variant>): string
    decreases |variants|
  {
    if |variants| == 0 then "" else Entry(variants[0]) + Body(variants[1..])
  }

  method MasterPlaylist(variants: seq<Variant>) returns (text: string)
    ensures text == HEADER + Body(variants)
  {
    text := HEADER;
    var k := 0;
    while k < |variants|
      invariant 0 <= k <= |variants|
      invariant text + Body(variants[k..]) == HEADER + Body(variants)
    {
      var v := variants[k];
      assert variants[k..][0] == v && variants[k..][1..] == variants[k + 1..];
      assert text + (Entry(v) + Body(variants[k + 1..])) == text + Entry(v) + Body(variants[k + 1..]);
      text := text + ("#EXT-X-STREAM-INF:" + ("BANDWIDTH=" + Decimal(v.bandwidth)) + "\n" + (v.name +
          "/playlist.m3u8" + "\n"));
      k := k + 1;
    }
  }

  /* ---- reading it back: RFC 8216, sections 4.3.1.1, 4.3.1.2 and 4.3.4.2 ---- */

  const TITLE := "#EXTM3U"
  const VERSION := "#EXT-X-VERSION:"
  const STREAM_INF := "#EXT-X-STREAM-INF:"
  const BANDWIDTH := "BANDWIDTH="

  datatype Stream = Stream(bandwidth: nat, uri: string)

  datatype Master = Master(version: nat, streams: seq<Stream>)

  predicate IsUri(line: string) {
    |line| > 0 && line[0] != '#'
  }

  /** The value of the BANDWIDTH attribute in an attribute list. */
  function ReadBandwidth(attributes: seq<string>): Option<nat>
    decreases |attributes|
  {
    if |attributes| == 0 then None
    else if BANDWIDTH <= attributes[0] then ParseDecimal(attributes[0][|BANDWIDTH|..])
    else ReadBandwidth(attributes[1..])
  }

  /** An EXT-X-STREAM-INF tag applies to the URI on the next line; blank lines and other lines
      that start with # are skipped. */
  function ReadLines(lines: seq<string>): Option<seq<Stream>>
    decreases |lines|
  {
    if |lines| == 0 then Some([])
    else if STREAM_INF <= lines[0] then
      var bandwidth := ReadBandwidth(Split(lines[0][|STREAM_INF|..], ','));
      if bandwidth.None? || |lines| < 2 || !IsUri(lines[1]) then None
      else
        match ReadLines(lines[2..])
        case None => None
        case Some(rest) => Some([Stream(bandwidth.value, lines[1])] + rest)
    else if IsUri(lines[0]) then None
    else ReadLines(lines[1..])
  }

  /** The number of the version tag; without one a playlist is of version 1. */
  function ReadVersion(lines: seq<string>): Option<nat>
    decreases |lines|
  {
    if |lines| == 0 then Some(1)
    else if VERSION <= lines[0] then ParseDecimal(lines[0][|VERSION|..])
    else ReadVersion(lines[1..])
  }

  function ReadMaster(text: string): Option<Master> {
    var lines := Split(text, '\n');
    if lines[0] != TITLE then None
    else
      match (ReadVersion(lines[1..]), ReadLines(lines[1..]))
      case (Some(version), Some(streams)) => Some(Master(version, streams))
      case _ => None
  }

  function Listing(variants: seq<Variant>): seq<Stream> {
    seq(|variants|, i requires 0 <= i < |variants| =>
      Stream(variants[i].bandwidth, variants[i].name + "/playlist.m3u8"))
  }

  predicate Printable(name: string) {
    '\n' !in name && (|name| > 0 ==> name[0] != '#')
  }

  function Lines(variants: seq<Variant>): seq<string>
    decreases |variants|
  {
    if |variants| == 0 then [""] else [InfoLine(variants[0]), UriLine(variants[0])] + Lines(variants[1..])
  }

  lemma TwoLines(a: string, b: string, rest: string)
    requires '\n' !in a && '\n' !in b
    ensures Split(a + ['\n'] + (b + ['\n']) + rest, '\n') == [a, b] + Split(rest, '\n')
  {
    assert a + ['\n'] + (b + ['\n']) + rest == a + ['\n'] + (b + ['\n'] + rest);
    SplitLine(a, b + ['\n'] + rest, '\n');
    SplitLine(b, rest, '\n');
  }

  lemma LinesAreWhole(v: Variant)
    requires '\n' !in v.name
    ensures '\n' !in InfoLine(v) && '\n' !in UriLine(v)
  {
    NotADigit(v.bandwidth, '\n');
  }

  lemma {:induction false} BodyLines(variants: seq<Variant>)
    requires forall v <- variants :: '\n' !in v.name
    ensures Split(Body(variants), '\n') == Lines(variants)
    decreases |variants|
  {
    hide Split, InfoLine, UriLine;
    if |variants| == 0 {
      SplitWhole("", '\n');
    } else {
      LinesAreWhole(variants[0]);
      TwoLines(InfoLine(variants[0]), UriLine(variants[0]), Body(variants[1..]));
      BodyLines(variants[1..]);
    }
  }

  lemma ReadInfoLine(v: Variant)
    ensures STREAM_INF <= InfoLine(v)
    ensures ReadBandwidth(Split(InfoLine(v)[|STREAM_INF|..], ',')) == Some(v.bandwidth)
  {
    var attributes := BANDWIDTH + Decimal(v.bandwidth);
    assert InfoLine(v)[|STREAM_INF|..] == attributes;
    NotADigit(v.bandwidth, ',');
    SplitWhole(attributes, ',');
    assert attributes[|BANDWIDTH|..] == Decimal(v.bandwidth);
    ParsePrinted(v.bandwidth);
  }

  lemma {:induction false} ReadPrintedLines(variants: seq<Variant>)
    requires forall v <- variants :: Printable(v.name)
    ensures ReadLines(Lines(variants)) == Some(Listing(variants))
    decreases |variants|
  {
    if |variants| == 0 {
      assert !(STREAM_INF <= "");
    } else {
      var v, rest := variants[0], variants[1..];
      ReadPrintedLines(rest);
      ReadInfoLine(v);
      assert IsUri(UriLine(v));
      assert Lines(variants)[2..] == Lines(rest);
      assert Listing(variants) == [Stream(v.bandwidth, UriLine(v))] + Listing(rest);
    }
  }

  lemma ReadHeader(body: string)
    ensures var streams := ReadLines(Split(body, '\n'));
      ReadMaster(HEADER + body) == if streams.Some? then Some(Master(3, streams.value)) else None
  {
    hide Split, ReadLines, ReadVersion;
    var lines := Split(body, '\n');
    HeaderLines(body);
    assert Split(HEADER + body, '\n')[1..] == [VERSION + "3", ""] + lines;
    SkippedLines(lines);
    FoundVersion([""] + lines);
    assert [VERSION + "3", ""] + lines == [VERSION + "3"] + ([""] + lines);
  }

  lemma FoundVersion(lines: seq<string>)
    ensures ReadVersion([VERSION + "3"] + lines) == Some(3)
  {
    var line := VERSION + "3";
    assert ([line] + lines)[0] == line && line[|VERSION|..] == "3";
    assert Decimal(3) == "3";
    ParsePrinted(3);
  }

  lemma HeaderParts()
    ensures HEADER == TITLE + ['\n'] + (VERSION + "3" + ['\n']) + ['\n']
    ensures '\n' !in TITLE && '\n' !in VERSION + "3"
  {
  }

  lemma HeaderLines(body: string)
    ensures Split(HEADER + body, '\n') == [TITLE, VERSION + "3"] + ([""] + Split(body, '\n'))
  {
    hide Split, HEADER, TITLE, VERSION;
    HeaderParts();
    var rest, version := "" + ['\n'] + body, VERSION + "3";
    assert HEADER + body == TITLE + ['\n'] + (version + ['\n']) + rest;
    TwoLines(TITLE, version, rest);
    SplitLine("", body, '\n');
  }

  lemma SkippedLines(lines: seq<string>)
    ensures ReadLines([VERSION + "3", ""] + lines) == ReadLines(lines)
  {
    var all := [VERSION + "3", ""] + lines;
    assert all[0][7] != STREAM_INF[7];
    assert all[1..] == [""] + lines && all[1..][1..] == lines;
    assert !(STREAM_INF <= "");
  }

  lemma {:induction false} ReadUrisAreLines(lines: seq<string>, i: nat)
    requires ReadLines(lines).Some? && i < |ReadLines(lines).value|
    ensures var uri := ReadLines(lines).value[i].uri;
      uri in lines && IsUri(uri)
    decreases |lines|
  {
    if STREAM_INF <= lines[0] {
      if i > 0 {
        ReadUrisAreLines(lines[2..], i - 1);
      }
    } else {
      ReadUrisAreLines(lines[1..], i);
    }
  }

  /** A player that reads the file gets exactly the listed bandwidths and URIs, in order, if and
      only if every name is free of newlines and does not start with #. */
  lemma MasterPlaylistRoundTrip(variants: seq<Variant>)
    ensures ReadMaster(HEADER + Body(variants)) == Some(Master(3, Listing(variants))) <==>
            forall v <- variants :: Printable(v.name)
  {
    ReadHeader(Body(variants));
    if forall v <- variants :: Printable(v.name) {
      BodyLines(variants);
      ReadPrintedLines(variants);
    }
    var lines := Split(Body(variants), '\n');
    if ReadLines(lines) == Some(Listing(variants)) {
      forall i | 0 <= i < |variants|
        ensures Printable(variants[i].name)
      {
        ReadUrisAreLines(lines, i);
        var name, uri := variants[i].name, UriLine(variants[i]);
        assert name == uri[..|name|];
      }
    }
  }
}
