/** The fallback ladder of HLS segmentation: one command for all qualities or one per quality, and
    NVENC before CPU. What ffmpeg, ffprobe and the file system answer is arbitrary. */
module HlsLadder {
  import opened Hls
  import opened HlsCommand

  datatype Options = Options(singleCommand: bool, fallback: bool, encoder: Encoder)

  datatype Call =
    | MakeDir(name: string)
    | Probe(height: int)
    | Single(args: seq<string>, encoder: Encoder)
    | One(variant: Variant, encoder: Encoder, hwaccel: bool)
    | WriteMaster(text: string)

  predicate IsRun(call: Call) {
    call.Single? || call.One?
  }

  /** How often ffmpeg was started. */
  function Runs(calls: seq<Call>): nat
    decreases |calls|
  {
    if |calls| == 0 then 0
    else
      var n := |calls| - 1;
      Runs(calls[..n]) + if IsRun(calls[n]) then 1 else 0
  }

  /** The command line for all the given qualities at once. */
  function CommandLine(variants: seq<Variant>, hasAudio: bool, encoder: Encoder): seq<string> {
    Flat(Items("input", "%v/seg_%03d.ts", variants, hasAudio, encoder)) + ["%v/playlist.m3u8"]
  }

  function PerVariant(encoder: Encoder): nat {
    if encoder.NVENC? then 2 else 1
  }

  lemma RunsPush(calls: seq<Call>, call: Call)
    ensures Runs(calls + [call]) == Runs(calls) + if IsRun(call) then 1 else 0
  {
    assert (calls + [call])[..|calls|] == calls;
  }

  lemma {:induction false} SuitableCount(ladder: seq<Variant>, height: int)
    ensures |Suitable(ladder, height)| <= |ladder|
    decreases |ladder|
  {
    if |ladder| > 0 {
      SuitableCount(ladder[..|ladder| - 1], height);
    }
  }

  lemma SelectedCount(ladder: seq<Variant>, height: int)
    requires |ladder| > 0
    ensures |Selected(ladder, height)| <= |ladder|
  {
    SuitableCount(ladder, height);
  }

  /** From `start` on only this encoder was used, and only the allowed kinds of command. */
  predicate Kept(calls: seq<Call>, start: nat, encoder: Encoder, single: bool, one: bool) {
    forall k :: start <= k < |calls| ==>
      && (IsRun(calls[k]) ==> calls[k].encoder == encoder)
      && (calls[k].Single? ==> single) && (calls[k].One? ==> one)
  }

  /** Between `start` and `end` nothing failed that ends a stage: only the height may stay unknown, and
      an encode with hardware decoding may be repeated without it. */
  predicate Unbroken(calls: seq<Call>, succeeds: nat -> bool, start: nat, end: nat) {
    forall k :: start <= k < end && k < |calls| && !succeeds(k) ==>
      calls[k].Probe? || (calls[k].One? && calls[k].hwaccel)
  }

  lemma UnbrokenFurther(a: seq<Call>, b: seq<Call>, succeeds: nat -> bool, start: nat, end: nat)
    requires a <= b && Unbroken(a, succeeds, start, |a|) && Unbroken(b, succeeds, |a|, end)
    ensures Unbroken(b, succeeds, start, end)
  {
    forall k | start <= k < |a|
      ensures b[k] == a[k]
    {
    }
  }

  /** The directory of `v` was made by a call at or after `start`. */
  predicate Prepared(calls: seq<Call>, succeeds: nat -> bool, start: nat, v: Variant) {
    exists k :: start <= k < |calls| && succeeds(k) && calls[k] == MakeDir(v.name)
  }

  /** `v` was encoded by a call at or after `start`, into a directory made for it before. */
  predicate Encoded(calls: seq<Call>, succeeds: nat -> bool, start: nat, v: Variant, encoder: Encoder) {
    exists k :: start <= k < |calls| && succeeds(k) && Prepared(calls[..k], succeeds, start, v) &&
      calls[k].One? && calls[k].variant == v && calls[k].encoder == encoder
  }

  /** The last call delivered the whole output for `selected`: either it is the single command over
      exactly these qualities, or it wrote the playlist of exactly these after each was encoded. */
  predicate Delivered(calls: seq<Call>, succeeds: nat -> bool, audio: nat -> bool, start: nat,
      selected: seq<Variant>, encoder: Encoder) {
    && |calls| > start
    && succeeds(|calls| - 1)
    && var last := calls[|calls| - 1];
       || (last == Single(CommandLine(selected, audio(|calls| - 1), encoder), encoder) &&
             forall v <- selected :: Prepared(calls, succeeds, start, v))
       || (last == WriteMaster(HEADER + Body(selected)) &&
             forall v <- selected :: Encoded(calls, succeeds, start, v, encoder))
  }

  /** What the single-command stage consists of: a directory per quality and the one command. */
  predicate OfSingleStage(call: Call) {
    call.Single? || call.MakeDir?
  }

  predicate NoOne(calls: seq<Call>, start: nat) {
    forall k :: start <= k < |calls| ==> !calls[k].One?
  }

  /** Qualities were only encoded one by one after the single-command stage had failed: the command
      itself, or one of the directories that come after the output directory and before it. */
  predicate SingleFirst(calls: seq<Call>, succeeds: nat -> bool, start: nat) {
    forall k :: start <= k < |calls| && calls[k].One? ==>
      exists j :: start < j < k && !succeeds(j) && OfSingleStage(calls[j]) && NoOne(calls[..j], start)
  }

  lemma SingleThenOne(a: seq<Call>, b: seq<Call>, succeeds: nat -> bool, start: nat, encoder: Encoder)
    requires start + 1 < |a| && a <= b && Kept(a, start, encoder, true, false)
    requires !succeeds(|a| - 1) && OfSingleStage(a[|a| - 1])
    ensures SingleFirst(b, succeeds, start)
  {
    assert b[|a| - 1] == a[|a| - 1];
    forall k | start <= k < |a|
      ensures b[k] == a[k]
    {
    }
    assert NoOne(b[..|a| - 1], start);
  }

  lemma NeverOne(calls: seq<Call>, succeeds: nat -> bool, start: nat, encoder: Encoder)
    requires Kept(calls, start, encoder, true, false)
    ensures SingleFirst(calls, succeeds, start)
  {
  }

  lemma KeptJoin(a: seq<Call>, b: seq<Call>, start: nat, encoder: Encoder, single: bool, one: bool)
    requires a <= b && Kept(a, start, encoder, single, one) && Kept(b, |a|, encoder, single, one)
    ensures Kept(b, start, encoder, single, one)
  {
    forall k | start <= k < |a|
      ensures b[k] == a[k]
    {
    }
  }

  lemma KeptMore(calls: seq<Call>, start: nat, encoder: Encoder, single: bool, one: bool, single': bool, one': bool)
    requires Kept(calls, start, encoder, single, one) && (single ==> single') && (one ==> one')
    ensures Kept(calls, start, encoder, single', one')
  {
  }

  lemma DeliveredEarlier(calls: seq<Call>, succeeds: nat -> bool, audio: nat -> bool, late: nat, early: nat,
      selected: seq<Variant>, encoder: Encoder)
    requires early <= late && Delivered(calls, succeeds, audio, late, selected, encoder)
    ensures Delivered(calls, succeeds, audio, early, selected, encoder)
  {
    hide CommandLine, HEADER, Body;
    forall v | v in selected && Encoded(calls, succeeds, late, v, encoder)
      ensures Encoded(calls, succeeds, early, v, encoder)
    {
      var k :| late <= k < |calls| && succeeds(k) && Prepared(calls[..k], succeeds, late, v) &&
        calls[k].One? && calls[k].variant == v && calls[k].encoder == encoder;
      assert Prepared(calls[..k], succeeds, early, v);
    }
  }

  /** The machine the pipeline runs on: what was asked of it so far, and how it answers. */
  class Host {
    const ladder: seq<Variant>
    /** Whether the n-th call succeeds. */
    const succeeds: nat -> bool
    /** What probing the height gives at the n-th call; 0 if it fails. */
    const heights: nat -> int
    const audio: nat -> bool
    var calls: seq<Call>

    constructor (ladder: seq<Variant>, succeeds: nat -> bool, heights: nat -> int, audio: nat -> bool)
      ensures this.ladder == ladder && this.succeeds == succeeds && this.heights == heights && this.audio == audio
      ensures calls == []
    {
      this.ladder, this.succeeds, this.heights, this.audio := ladder, succeeds, heights, audio;
      calls := [];
    }

    /** What a body that starts with the given call selects; its probe is the call after that. */
    function SelectedFrom(start: nat): seq<Variant>
      requires |ladder| > 0
    {
      Selected(ladder, heights(start + 1))
    }

    method Do(call: Call) returns (ok: bool)
      modifies this
      ensures calls == old(calls) + [call] && ok == succeeds(|old(calls)|)
      ensures Runs(calls) == Runs(old(calls)) + if IsRun(call) then 1 else 0
    {
      ok := succeeds(|calls|);
      RunsPush(calls, call);
      calls := calls + [call];
    }

    method TranscodeVariant(v: Variant, encoder: Encoder) returns (ok: bool)
      modifies this
      ensures old(calls) < calls && ok == succeeds(|calls| - 1)
      ensures calls == old(calls) + [One(v, encoder, encoder.NVENC?)] +
                       if encoder.NVENC? && !succeeds(|old(calls)|) then [One(v, encoder, false)] else []
      ensures Runs(calls) <= Runs(old(calls)) + PerVariant(encoder)
    {
      if encoder.NVENC? {
        ok := Do(One(v, encoder, true));
        if ok {
          return;
        }
        ok := Do(One(v, encoder, false));
      } else {
        ok := Do(One(v, encoder, false));
      }
    }

    /** One directory and one encode. */
    method SegmentVariant(v: Variant, encoder: Encoder, ghost start: nat) returns (ok: bool)
      requires start <= |calls| && Kept(calls, start, encoder, false, true)
      modifies this
      ensures old(calls) < calls && ok == succeeds(|calls| - 1)
      ensures Kept(calls, start, encoder, false, true)
      ensures Unbroken(calls, succeeds, |old(calls)|, |calls| - 1)
      ensures ok ==> Encoded(calls, succeeds, start, v, encoder)
      ensures Runs(calls) <= Runs(old(calls)) + PerVariant(encoder)
    {
      hide Runs, PerVariant, Encoded;
      ok := Do(MakeDir(v.name));
      if !ok {
        return;
      }
      ghost var made := calls;
      ok := TranscodeVariant(v, encoder);
      if ok {
        JustEncoded(made, calls, succeeds, start, v, encoder);
      }
    }

    method SegmentSequential(selected: seq<Variant>, encoder: Encoder) returns (ok: bool)
      modifies this
      ensures old(calls) < calls && ok == succeeds(|calls| - 1)
      ensures Kept(calls, |old(calls)|, encoder, false, true)
      ensures Unbroken(calls, succeeds, |old(calls)|, |calls| - 1)
      ensures Runs(calls) <= Runs(old(calls)) + PerVariant(encoder) * |selected|
      ensures ok ==> Delivered(calls, succeeds, audio, |old(calls)|, selected, encoder)
    {
      hide Runs, PerVariant, CommandLine, HEADER, Body;
      ghost var start, runs := |calls|, Runs(calls);
      var i := 0;
      while i < |selected|
        invariant 0 <= i <= |selected|
        invariant old(calls) <= calls
        invariant Kept(calls, start, encoder, false, true)
        invariant Unbroken(calls, succeeds, start, |calls|)
        invariant Runs(calls) <= runs + PerVariant(encoder) * i
        invariant forall j :: 0 <= j < i ==> Encoded(calls, succeeds, start, selected[j], encoder)
      {
        ghost var before := calls;
        RunsGrow(encoder, i, |selected|);
        ok := SegmentVariant(selected[i], encoder, start);
        UnbrokenFurther(before, calls, succeeds, start, |calls| - 1);
        if !ok {
          return;
        }
        StillEncoded(before, calls, succeeds, start, selected[..i], encoder);
        assert forall j :: 0 <= j < i ==> selected[..i][j] == selected[j];
        i := i + 1;
      }
      var text := MasterPlaylist(selected);
      ghost var before := calls;
      ok := Do(WriteMaster(text));
      StillEncoded(before, calls, succeeds, start, selected, encoder);
    }

    method SegmentSingleCommand(selected: seq<Variant>, encoder: Encoder) returns (ok: bool)
      requires |selected| > 0
      modifies this
      ensures old(calls) < calls && ok == succeeds(|calls| - 1)
      ensures Kept(calls, |old(calls)|, encoder, true, false)
      ensures Unbroken(calls, succeeds, |old(calls)|, |calls| - 1) && OfSingleStage(calls[|calls| - 1])
      ensures Runs(calls) <= Runs(old(calls)) + 1
      ensures ok ==> Delivered(calls, succeeds, audio, |old(calls)|, selected, encoder)
    {
      hide CommandLine, HEADER, Body, Kept, Runs;
      ghost var start := |calls|;
      KeptNothing(calls, encoder, true, false);
      var i := 0;
      while i < |selected|
        invariant 0 <= i <= |selected|
        invariant old(calls) <= calls
        invariant Kept(calls, start, encoder, true, false)
        invariant Unbroken(calls, succeeds, start, |calls|)
        invariant Runs(calls) == Runs(old(calls))
        invariant forall j :: 0 <= j < i ==> Prepared(calls, succeeds, start, selected[j])
      {
        ghost var before := calls;
        KeptPush(calls, MakeDir(selected[i].name), start, encoder, true, false);
        ok := Do(MakeDir(selected[i].name));
        if !ok {
          return;
        }
        StillPrepared(before, calls, succeeds, start, selected[..i]);
        assert forall j :: 0 <= j < i ==> selected[..i][j] == selected[j];
        assert calls[|before|] == MakeDir(selected[i].name);
        i := i + 1;
      }
      ghost var before := calls;
      var hasAudio := audio(|calls|);
      var args := CommandLineOf(selected, hasAudio, encoder);
      KeptPush(calls, Single(args, encoder), start, encoder, true, false);
      ok := Do(Single(args, encoder));
      StillPrepared(before, calls, succeeds, start, selected);
    }

    method SegmentBody(opts: Options, encoder: Encoder) returns (ok: bool)
      requires |ladder| > 0
      modifies this
      ensures old(calls) < calls && ok == succeeds(|calls| - 1)
      ensures calls[|old(calls)|] == MakeDir("output")
      ensures |calls| == |old(calls)| + 1 <==> !succeeds(|old(calls)|)
      ensures succeeds(|old(calls)|) ==>
                |calls| > |old(calls)| + 2 && calls[|old(calls)| + 1] == Probe(heights(|old(calls)| + 1))
      ensures !(opts.singleCommand && opts.fallback) ==> Unbroken(calls, succeeds, |old(calls)|, |calls| - 1)
      ensures opts.singleCommand && opts.fallback && succeeds(|old(calls)|) && !ok ==>
                exists j :: |old(calls)| + 1 < j < |calls| - 1 && !succeeds(j) && OfSingleStage(calls[j])
      ensures Kept(calls, |old(calls)|, encoder, opts.singleCommand, !opts.singleCommand || opts.fallback)
      ensures Runs(calls) <= Runs(old(calls)) + 1 + PerVariant(encoder) * |SelectedFrom(|old(calls)|)|
      ensures ok ==> Delivered(calls, succeeds, audio, |old(calls)|, SelectedFrom(|old(calls)|), encoder)
      ensures opts.singleCommand ==> SingleFirst(calls, succeeds, |old(calls)|)
    {
      hide Runs, Kept, Delivered, Selected, SingleFirst;
      ghost var start, runs := |calls|, Runs(calls);
      ghost var single, one := opts.singleCommand, !opts.singleCommand || opts.fallback;
      ok := Do(MakeDir("output"));
      KeptPush(old(calls), MakeDir("output"), start, encoder, false, false);
      KeptMore(calls, start, encoder, false, false, true, false);
      KeptMore(calls, start, encoder, false, false, single, one);
      NeverOne(calls, succeeds, start, encoder);
      if !ok {
        return;
      }
      var height := heights(|calls|);
      ghost var before := calls;
      ok := Do(Probe(height));
      KeptPush(before, Probe(height), start, encoder, false, false);
      KeptMore(calls, start, encoder, false, false, true, false);
      KeptMore(calls, start, encoder, false, false, single, one);
      var selected := SelectVariants(ladder, height);
      SelectionFound(ladder, height);
      if opts.singleCommand {
        before := calls;
        ok := SegmentSingleCommand(selected, encoder);
        KeptJoin(before, calls, start, encoder, true, false);
        KeptMore(calls, start, encoder, true, false, single, one);
        NeverOne(calls, succeeds, start, encoder);
        if ok {
          DeliveredEarlier(calls, succeeds, audio, |before|, start, selected, encoder);
          return;
        }
        if !opts.fallback {
          return;
        }
      }
      before := calls;
      ok := SegmentSequential(selected, encoder);
      KeptMore(calls, |before|, encoder, false, true, single, one);
      KeptJoin(before, calls, start, encoder, single, one);
      if opts.singleCommand {
        SingleThenOne(before, calls, succeeds, start, encoder);
      }
      if ok {
        DeliveredEarlier(calls, succeeds, audio, |before|, start, selected, encoder);
      }
    }

    /** `split` is where the CPU retry starts, if there is one. */
    method Segment(opts: Options) returns (ok: bool, ghost split: nat)
      requires |ladder| > 0
      modifies this
      ensures old(calls) < calls && ok == succeeds(|calls| - 1)
      ensures |old(calls)| < split <= |calls|
      ensures Kept(calls[..split], |old(calls)|, opts.encoder, opts.singleCommand, !opts.singleCommand || opts.fallback)
      ensures Kept(calls, split, CPU, opts.singleCommand, !opts.singleCommand || opts.fallback)
      ensures split < |calls| ==> opts.encoder.NVENC? && !succeeds(split - 1)
      ensures !ok && opts.encoder.NVENC? ==> split < |calls|
      ensures opts.singleCommand ==>
                SingleFirst(calls[..split], succeeds, |old(calls)|) && SingleFirst(calls, succeeds, split)
      ensures ok && split == |calls| ==>
                Delivered(calls, succeeds, audio, |old(calls)|, SelectedFrom(|old(calls)|), opts.encoder)
      ensures ok && split < |calls| ==> Delivered(calls, succeeds, audio, split, SelectedFrom(split), CPU)
      ensures Runs(calls) <= Runs(old(calls)) + 1 + PerVariant(opts.encoder) * |SelectedFrom(|old(calls)|)| +
                             if split < |calls| then 1 + |SelectedFrom(split)| else 0
      ensures Runs(calls) <= Runs(old(calls)) + if opts.encoder.NVENC? then 3 * |ladder| + 2 else |ladder| + 1
    {
      hide Runs, Kept, Delivered, Selected, SingleFirst;
      SelectedCount(ladder, heights(|calls| + 1));
      ok := SegmentBody(opts, opts.encoder);
      split := |calls|;
      ghost var first := calls;
      assert calls[..split] == calls;
      KeptNothing(calls, CPU, opts.singleCommand, !opts.singleCommand || opts.fallback);
      SingleNothing(calls, succeeds);
      if !ok && opts.encoder.NVENC? {
        SelectedCount(ladder, heights(split + 1));
        ok := SegmentBody(opts, CPU);
        assert calls[..split] == first;
      }
    }
  }

  lemma KeptNothing(calls: seq<Call>, encoder: Encoder, single: bool, one: bool)
    ensures Kept(calls, |calls|, encoder, single, one)
  {
  }

  lemma SingleNothing(calls: seq<Call>, succeeds: nat -> bool)
    ensures SingleFirst(calls, succeeds, |calls|)
  {
  }

  lemma RunsGrow(encoder: Encoder, i: nat, n: nat)
    requires i < n
    ensures PerVariant(encoder) * i + PerVariant(encoder) == PerVariant(encoder) * (i + 1) <= PerVariant(encoder) * n
  {
  }

  lemma KeptPush(calls: seq<Call>, call: Call, start: nat, encoder: Encoder, single: bool, one: bool)
    requires start <= |calls| && (IsRun(call) ==> call.encoder == encoder)
    requires (call.Single? ==> single) && (call.One? ==> one)
    requires start < |calls| ==> Kept(calls, start, encoder, single, one)
    ensures Kept(calls + [call], start, encoder, single, one)
  {
  }

  lemma SelectionFound(ladder: seq<Variant>, height: int)
    requires |ladder| > 0
    ensures |Selected(ladder, height)| > 0
  {
  }

  lemma JustEncoded(made: seq<Call>, calls: seq<Call>, succeeds: nat -> bool, start: nat, v: Variant, encoder: Encoder)
    requires start < |made| && made[|made| - 1] == MakeDir(v.name) && succeeds(|made| - 1)
    requires made < calls && succeeds(|calls| - 1)
    requires var last := calls[|calls| - 1]; last.One? && last.variant == v && last.encoder == encoder
    ensures Encoded(calls, succeeds, start, v, encoder)
  {
    var before := calls[..|calls| - 1];
    assert before[|made| - 1] == MakeDir(v.name);
    assert Prepared(before, succeeds, start, v);
  }

  lemma StillPrepared(a: seq<Call>, b: seq<Call>, succeeds: nat -> bool, start: nat, variants: seq<Variant>)
    requires a <= b
    requires forall j :: 0 <= j < |variants| ==> Prepared(a, succeeds, start, variants[j])
    ensures forall j :: 0 <= j < |variants| ==> Prepared(b, succeeds, start, variants[j])
  {
    forall j | 0 <= j < |variants|
      ensures Prepared(b, succeeds, start, variants[j])
    {
      assert Prepared(a, succeeds, start, variants[j]);
      var k :| start <= k < |a| && succeeds(k) && a[k] == MakeDir(variants[j].name);
      assert b[k] == a[k];
    }
  }

  lemma StillEncoded(a: seq<Call>, b: seq<Call>, succeeds: nat -> bool, start: nat, variants: seq<Variant>,
      encoder: Encoder)
    requires a <= b
    requires forall j :: 0 <= j < |variants| ==> Encoded(a, succeeds, start, variants[j], encoder)
    ensures forall j :: 0 <= j < |variants| ==> Encoded(b, succeeds, start, variants[j], encoder)
  {
    forall j | 0 <= j < |variants|
      ensures Encoded(b, succeeds, start, variants[j], encoder)
    {
      assert Encoded(a, succeeds, start, variants[j], encoder);
      var k :| start <= k < |a| && succeeds(k) && Prepared(a[..k], succeeds, start, variants[j]) &&
        a[k].One? && a[k].variant == variants[j] && a[k].encoder == encoder;
      assert b[k] == a[k] && b[..k] == a[..k];
    }
  }

  method CommandLineOf(selected: seq<Variant>, hasAudio: bool, encoder: Encoder) returns (args: seq<string>)
    requires |selected| > 0
    ensures args == CommandLine(selected, hasAudio, encoder)
  {
    args := SingleCommandArgs("input", "%v/seg_%03d.ts", "%v/playlist.m3u8", selected, hasAudio, encoder);
  }
}
