/** The -filter_complex text of the single-command encoder, and reading it as ffmpeg does. */
module FilterGraph {
  import opened Jobs
  import opened Text
  import opened Hls

  /** One filter: input pads, name with arguments, output pads. */
  datatype Filter = Filter(ins: seq<string>, body: string, outs: seq<string>)

  function Pad(name: string): string {
    ['['] + name + [']']
  }

  /** strings.Join with an empty separator. */
  function Concat(parts: seq<string>): string
    decreases |parts|
  {
    if |parts| == 0 then "" else parts[0] + Concat(parts[1..])
  }

  function Pads(labels: seq<string>): seq<string> {
    seq(|labels|, i requires 0 <= i < |labels| => Pad(labels[i]))
  }

  function Print(f: Filter): string {
    Concat(Pads(f.ins)) + f.body + Concat(Pads(f.outs))
  }

  /* ---- what is printed ---- */

  function Label(i: nat): string {
    "v" + Decimal(i)
  }

  function Scaled(i: nat): string {
    "v" + Decimal(i) + "out"
  }

  function Labels(n: nat): seq<string> {
    seq(n, i requires 0 <= i < n => Label(i))
  }

  function SplitFilter(n: nat): Filter {
    Filter(["0:v"], "split=" + Decimal(n), Labels(n))
  }

  function ScaleFilter(i: nat, v: Variant): Filter {
    Filter([Label(i)], "scale=-2:" + Decimal(v.height), [Scaled(i)])
  }

  function Graph(variants: seq<Variant>): seq<Filter> {
    [SplitFilter(|variants|)] +
    seq(|variants|, i requires 0 <= i < |variants| => ScaleFilter(i, variants[i]))
  }

  function Printed(graph: seq<Filter>): seq<string> {
    seq(|graph|, i requires 0 <= i < |graph| => Print(graph[i]))
  }

  lemma OneInput(pad: string, rest: string)
    ensures Concat(Pads([pad])) + rest == Pad(pad) + rest
  {
    assert Pads([pad]) == [Pad(pad)];
    assert Concat([Pad(pad)]) == Pad(pad) + "";
  }

  /** The scale filters as text. */
  function ScaleTexts(variants: seq<Variant>): seq<string> {
    seq(|variants|, i requires 0 <= i < |variants| => Print(ScaleFilter(i, variants[i])))
  }

  /** The graph text as the loop builds it. */
  method FilterComplex(variants: seq<Variant>) returns (text: string)
    requires |variants| > 0
    ensures text == Join(Printed(Graph(variants)), ';')
  {
    hide Decimal, Print, Join, Concat, Graph, Printed;
    var splitOutputs: seq<string>, filterParts: seq<string> := [], [];
    var i := 0;
    while i < |variants|
      invariant 0 <= i <= |variants|
      invariant splitOutputs == Pads(Labels(i))
      invariant filterParts == ScaleTexts(variants)[..i]
    {
      var pad := "v" + Decimal(i);
      var scaled := "v" + Decimal(i) + "out";
      splitOutputs := splitOutputs + ["[" + pad + "]"];
      filterParts := filterParts + ["[" + pad + "]" + ("scale=-2:" + Decimal(variants[i].height)) + ("[" + scaled +
          "]")];
      PrintScale(i, variants[i]);
      i := i + 1;
    }
    var n := |variants|;
    text := "[" + "0:v" + "]" + ("split=" + Decimal(n)) + Concat(splitOutputs) + [';'] + Join(filterParts, ';');
    assert ScaleTexts(variants)[..n] == ScaleTexts(variants);
    PrintGraph(variants);
  }

  lemma PrintGraph(variants: seq<Variant>)
    requires |variants| > 0
    ensures Join(Printed(Graph(variants)), ';') ==
            Pad("0:v") + ("split=" + Decimal(|variants|)) + Concat(Pads(Labels(|variants|))) + [';'] +
            Join(ScaleTexts(variants), ';')
  {
    hide *;
    PrintSplit(|variants|);
    PrintEach(variants);
    JoinCons(Print(SplitFilter(|variants|)), ScaleTexts(variants));
  }

  lemma PrintEach(variants: seq<Variant>)
    ensures Printed(Graph(variants)) == [Print(SplitFilter(|variants|))] + ScaleTexts(variants)
    ensures |ScaleTexts(variants)| == |variants|
  {
    hide Print, ScaleFilter, SplitFilter;
    var graph := Graph(variants);
    forall k | 0 <= k < |graph|
      ensures Printed(graph)[k] == ([Print(SplitFilter(|variants|))] + ScaleTexts(variants))[k]
    {
      assert Printed(graph)[k] == Print(graph[k]);
    }
  }

  lemma JoinCons(first: string, rest: seq<string>)
    requires |rest| > 0
    ensures Join([first] + rest, ';') == first + [';'] + Join(rest, ';')
  {
    assert ([first] + rest)[1..] == rest;
  }

  lemma PrintScale(i: nat, v: Variant)
    ensures Print(ScaleFilter(i, v)) == Pad(Label(i)) + ("scale=-2:" + Decimal(v.height)) + Pad(Scaled(i))
  {
    OneInput(Label(i), "scale=-2:" + Decimal(v.height));
    OneInput(Scaled(i), "");
    assert Concat(Pads([Scaled(i)])) + "" == Concat(Pads([Scaled(i)]));
    assert Pad(Scaled(i)) + "" == Pad(Scaled(i));
  }

  lemma PrintSplit(n: nat)
    ensures Print(SplitFilter(n)) == Pad("0:v") + ("split=" + Decimal(n)) + Concat(Pads(Labels(n)))
  {
    OneInput("0:v", "split=" + Decimal(n));
  }

  /* ---- reading it back ---- */

  /** Length of the part before the first `c`. */
  function Before(s: string, c: char): (k: nat)
    ensures k <= |s| && c !in s[..k] && (k < |s| ==> s[k] == c)
    decreases |s|
  {
    if |s| == 0 || s[0] == c then 0 else 1 + Before(s[1..], c)
  }

  /** The link labels at the front of the text, and what follows them. */
  function ReadPads(s: string): (r: (seq<string>, string))
    ensures |r.1| <= |s|
    decreases |s|
  {
    if |s| == 0 || s[0] != '[' then ([], s)
    else
      var k := Before(s, ']');
      if k == |s| then ([], s)
      else
        var (labels, rest) := ReadPads(s[k + 1..]);
        ([s[1..k]] + labels, rest)
  }

  function ReadFilter(s: string): Option<Filter> {
    var (ins, after) := ReadPads(s);
    var k := Before(after, '[');
    var (outs, rest) := ReadPads(after[k..]);
    if rest == "" then Some(Filter(ins, after[..k], outs)) else None
  }

  function ReadFilters(parts: seq<string>): Option<seq<Filter>>
    decreases |parts|
  {
    if |parts| == 0 then Some([])
    else
      match (ReadFilter(parts[0]), ReadFilters(parts[1..]))
      case (Some(f), Some(fs)) => Some([f] + fs)
      case _ => None
  }

  function ReadGraph(text: string): Option<seq<Filter>> {
    ReadFilters(Split(text, ';'))
  }

  predicate PlainLabel(pad: string) {
    ']' !in pad && ';' !in pad
  }

  /** Filters whose text can be taken apart again. */
  predicate Plain(f: Filter) {
    && (forall l <- f.ins :: PlainLabel(l))
    && (forall l <- f.outs :: PlainLabel(l))
    && |f.body| > 0 && '[' !in f.body && ';' !in f.body
  }

  lemma {:induction false} BeforeFound(head: string, rest: string, c: char)
    requires c !in head && (|rest| > 0 ==> rest[0] == c)
    ensures Before(head + rest, c) == |head|
    decreases |head|
  {
    var s := head + rest;
    if |head| == 0 {
      assert s == rest;
    } else {
      assert s[0] == head[0] && s[1..] == head[1..] + rest;
      BeforeFound(head[1..], rest, c);
    }
  }

  lemma ReadOnePad(pad: string, tail: string)
    requires ']' !in pad
    ensures ReadPads(Pad(pad) + tail) == (var (labels, rest) := ReadPads(tail); ([pad] + labels, rest))
  {
    hide Before;
    var s := Pad(pad) + tail;
    assert s == (['['] + pad) + ([']'] + tail);
    BeforeFound(['['] + pad, [']'] + tail, ']');
    assert s[1..|pad| + 1] == pad && s[|pad| + 2..] == tail;
  }

  lemma {:induction false} ReadPrintedPads(labels: seq<string>, rest: string)
    requires forall l <- labels :: ']' !in l
    requires |rest| > 0 ==> rest[0] != '['
    ensures ReadPads(Concat(Pads(labels)) + rest) == (labels, rest)
    decreases |labels|
  {
    hide Pad;
    if |labels| == 0 {
      assert Concat(Pads(labels)) + rest == rest;
    } else {
      hide ReadPads;
      var pad, tail := labels[0], Concat(Pads(labels[1..])) + rest;
      assert Pads(labels)[1..] == Pads(labels[1..]);
      assert Concat(Pads(labels)) + rest == Pad(pad) + tail;
      ReadOnePad(pad, tail);
      ReadPrintedPads(labels[1..], rest);
      assert labels == [pad] + labels[1..];
    }
  }

  lemma PadsOpen(labels: seq<string>)
    ensures |Concat(Pads(labels))| > 0 ==> Concat(Pads(labels))[0] == '['
  {
    if |labels| > 0 {
      assert Pads(labels)[0] == Pad(labels[0]);
    }
  }

  lemma ReadPrintedFilter(f: Filter)
    requires Plain(f)
    ensures ReadFilter(Print(f)) == Some(f)
  {
    hide Concat, Pads, Before, ReadPads;
    var outs := Concat(Pads(f.outs));
    var after := f.body + outs;
    assert Print(f) == Concat(Pads(f.ins)) + after;
    ReadPrintedPads(f.ins, after);
    PadsOpen(f.outs);
    BeforeFound(f.body, outs, '[');
    assert after[|f.body|..] == outs + "" && after[..|f.body|] == f.body;
    ReadPrintedPads(f.outs, "");
  }

  lemma {:induction false} ReadPrintedFilters(graph: seq<Filter>)
    requires forall f <- graph :: Plain(f)
    ensures ReadFilters(Printed(graph)) == Some(graph)
    decreases |graph|
  {
    hide Plain, ReadFilter, Print;
    if |graph| > 0 {
      ReadPrintedFilter(graph[0]);
      ReadPrintedFilters(graph[1..]);
      assert Printed(graph)[1..] == Printed(graph[1..]);
      assert graph == [graph[0]] + graph[1..];
    }
  }

  lemma {:induction false} ConcatFree(parts: seq<string>, c: char)
    requires forall p <- parts :: c !in p
    ensures c !in Concat(parts)
    decreases |parts|
  {
    if |parts| > 0 {
      ConcatFree(parts[1..], c);
    }
  }

  lemma PadsFree(labels: seq<string>, c: char)
    requires forall l <- labels :: c !in l
    requires c != '[' && c != ']'
    ensures forall p <- Pads(labels) :: c !in p
  {
    forall p | p in Pads(labels)
      ensures c !in p
    {
      var i :| 0 <= i < |labels| && p == Pad(labels[i]);
      assert c !in labels[i];
    }
  }

  lemma PrintFree(f: Filter)
    requires Plain(f)
    ensures ';' !in Print(f)
  {
    PadsFree(f.ins, ';');
    PadsFree(f.outs, ';');
    ConcatFree(Pads(f.ins), ';');
    ConcatFree(Pads(f.outs), ';');
  }

  lemma PlainSplit(n: nat)
    ensures Plain(SplitFilter(n))
  {
    var f := SplitFilter(n);
    NotADigit(n, '[');
    NotADigit(n, ';');
    forall l | l in f.outs
      ensures PlainLabel(l)
    {
      var i :| 0 <= i < n && l == Label(i);
      NotADigit(i, ']');
      NotADigit(i, ';');
    }
  }

  lemma PlainScale(i: nat, v: Variant)
    ensures Plain(ScaleFilter(i, v))
  {
    NotADigit(i, ']');
    NotADigit(i, ';');
    NotADigit(v.height, '[');
    NotADigit(v.height, ';');
    assert PlainLabel(Label(i)) && PlainLabel(Scaled(i));
  }

  /** The text means the graph: one split with a pad per variant, then one scale per variant. */
  lemma GraphRoundTrip(variants: seq<Variant>)
    ensures ReadGraph(Join(Printed(Graph(variants)), ';')) == Some(Graph(variants))
  {
    hide Plain, Print;
    var graph := Graph(variants);
    forall f | f in graph
      ensures Plain(f) && ';' !in Print(f)
    {
      var k :| 0 <= k < |graph| && graph[k] == f;
      PlainSplit(|variants|);
      if k > 0 {
        PlainScale(k - 1, variants[k - 1]);
      }
      PrintFree(f);
    }
    ReadPrintedFilters(graph);
    SplitJoined(Printed(graph), ';');
  }

  lemma LabelsApart(i: nat, j: nat)
    ensures Label(i) == Label(j) <==> i == j
    ensures Scaled(i) == Scaled(j) <==> i == j
    ensures Label(i) != Scaled(j)
    ensures Label(i) != "0:v" && Scaled(i) != "0:v"
  {
    var a, b := Label(i), Label(j);
    assert a[0] == 'v' && Scaled(i)[0] == 'v' && "0:v"[0] == '0';
    if a == b {
      assert Decimal(i) == a[1..] && Decimal(j) == b[1..];
      DecimalInjective(i, j);
    }
    var c, d := Scaled(i), Scaled(j);
    if c == d {
      assert Decimal(i) == c[1..|c| - 3] && Decimal(j) == d[1..|d| - 3];
      DecimalInjective(i, j);
    }
    assert d[|d| - 1] == 't';
    assert a[|a| - 1] == Decimal(i)[|Decimal(i)| - 1];
  }

  /** Every split pad is consumed by exactly one scale, in order, with that variant's height, and
      the scaled labels are distinct from one another and from every pad. */
  lemma GraphWellFormed(variants: seq<Variant>, i: nat, j: nat)
    requires i < |variants| && j < |variants|
    ensures var g := Graph(variants);
      && g[0].ins == ["0:v"] && g[0].body == "split=" + Decimal(|variants|) && |g[0].outs| == |variants|
      && (g[0].outs[i] == g[0].outs[j] <==> i == j)
      && (g[1 + j].ins == [g[0].outs[i]] <==> i == j)
      && (g[1 + i].outs == g[1 + j].outs <==> i == j)
      && g[1 + i].outs[0] != g[0].outs[j] && g[1 + i].outs[0] != "0:v"
      && |g[1 + i].outs| == 1
      && g[1 + i].body == "scale=-2:" + Decimal(variants[i].height)
  {
    hide Label, Scaled;
    LabelsApart(i, j);
    LabelsApart(j, i);
    var g := Graph(variants);
    assert g[0] == SplitFilter(|variants|);
    assert g[0].outs[i] == Label(i) && g[0].outs[j] == Label(j);
    assert g[1 + i] == ScaleFilter(i, variants[i]) && g[1 + j] == ScaleFilter(j, variants[j]);
    assert g[1 + j].ins[0] == Label(j) && g[1 + i].outs[0] == Scaled(i) && g[1 + j].outs[0] == Scaled(j);
  }
}
