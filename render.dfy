/**
 * The two job-config renderers of src/utils.rs.  Each is a single `format!`
 * over a fixed JSON text with `{}` holes; the model cuts that text at its
 * holes (a template) and fills the holes with the path arguments verbatim,
 * with no escaping.  A small reader recovers the holes from a document, which
 * is how the round trip and the effect of a stray quote are stated.
 */
module Render {
  import opened Wrappers
  import opened Types

  predicate StartsWith(s: string, t: string) {
    |t| <= |s| && s[..|t|] == t
  }

  predicate EndsWith(s: string, t: string) {
    |t| <= |s| && s[|s| - |t|..] == t
  }

  // ---------------------------------------------------------------------------
  // Templates: literal text with holes
  // ---------------------------------------------------------------------------

  /** A format string cut at its holes: `lits[i]` precedes hole `i` and the
      last literal follows the last hole.  `Fill` splices the holes in verbatim. */
  function Fill(lits: seq<string>, holes: seq<string>): string
    requires |lits| == |holes| + 1
    decreases |holes|
  {
    if holes == [] then lits[0] else lits[0] + holes[0] + Fill(lits[1..], holes[1..])
  }

  /** Filling one slot of a template, grouped from the right. */
  lemma FillStep(lits: seq<string>, holes: seq<string>)
    requires |lits| == |holes| + 1 && holes != []
    ensures Fill(lits, holes) == lits[0] + (holes[0] + Fill(lits[1..], holes[1..]))
  {
    assert lits[0] + holes[0] + Fill(lits[1..], holes[1..]) == lits[0] + (holes[0] + Fill(lits[1..], holes[1..]));
  }

  /** Each hole lands in its own slot: the text before hole `i` depends only on
      the holes before it, the text after it only on the holes after it, so
      changing one argument changes that slot of the output and nothing else. */
  lemma {:induction false} FillSlot(lits: seq<string>, holes: seq<string>, i: nat, x: string)
    requires |lits| == |holes| + 1 && i < |holes|
    ensures Fill(lits, holes) == Fill(lits[..i + 1], holes[..i]) + holes[i] + Fill(lits[i + 1..], holes[i + 1..])
    ensures Fill(lits, holes[i := x]) == Fill(lits[..i + 1], holes[..i]) + x + Fill(lits[i + 1..], holes[i + 1..])
  {
    var hx := holes[i := x];
    if i == 0 {
      assert lits[..1][0] == lits[0];
      assert hx[1..] == holes[1..];
    } else {
      FillSlot(lits[1..], holes[1..], i - 1, x);
      assert lits[..i + 1][1..] == lits[1..][..i];
      assert holes[..i][1..] == holes[1..][..i - 1];
      assert lits[1..][i..] == lits[i + 1..];
      assert holes[1..][i..] == holes[i + 1..];
      assert hx[0] == holes[0];
      assert hx[1..] == holes[1..][i - 1 := x];
    }
  }

  lemma {:induction false} FillStartsWith(lits: seq<string>, holes: seq<string>)
    requires |lits| == |holes| + 1
    ensures StartsWith(Fill(lits, holes), lits[0])
  {
    if holes != [] {
      var f := Fill(lits, holes);
      assert f == lits[0] + (holes[0] + Fill(lits[1..], holes[1..]));
    }
  }

  lemma {:induction false} FillEndsWith(lits: seq<string>, holes: seq<string>)
    requires |lits| == |holes| + 1
    ensures EndsWith(Fill(lits, holes), lits[|lits| - 1])
  {
    if holes != [] {
      FillEndsWith(lits[1..], holes[1..]);
      assert lits[1..][|lits| - 2] == lits[|lits| - 1];
    }
  }

  lemma EndsWithSuffix(s: string, a: string, b: string)
    requires EndsWith(s, a + b)
    ensures EndsWith(s, b)
  {
    assert s[|s| - |b|..] == s[|s| - |a + b|..][|a|..];
  }

  /** Text that can sit between two quotes as a JSON string without escaping:
      no quote, no backslash and no control character. */
  predicate PlainChar(c: char) {
    c != '"' && c != '\\' && c >= ' '
  }

  predicate Plain(s: string) {
    forall i :: 0 <= i < |s| ==> PlainChar(s[i])
  }

  predicate AllPlain(holes: seq<string>) {
    forall i :: 0 <= i < |holes| ==> Plain(holes[i])
  }

  /** Every hole sits inside a JSON string: the literal after it opens with the closing quote. */
  predicate QuotedHoles(lits: seq<string>) {
    forall i :: 1 <= i < |lits| ==> lits[i] != [] && lits[i][0] == '"'
  }

  /** The characters of a JSON string token up to its closing quote. */
  function Token(s: string): (t: string)
    ensures |t| <= |s| && t == s[..|t|]
    ensures '"' !in t
    ensures |t| < |s| ==> s[|t|] == '"'
  {
    if s == [] || s[0] == '"' then [] else [s[0]] + Token(s[1..])
  }

  /** Reads a document against a template whose holes are JSON strings: the
      literals must match exactly and each hole is the (escape-free) string
      token that starts there. */
  function Read(lits: seq<string>, doc: string): Option<seq<string>>
    requires |lits| >= 1
    decreases |lits|
  {
    if !StartsWith(doc, lits[0]) then None
    else
      var rest := doc[|lits[0]|..];
      if |lits| == 1 then (if rest == [] then Some([]) else None)
      else
        var tok := Token(rest);
        if !Plain(tok) then None
        else match Read(lits[1..], rest[|tok|..])
          case None => None
          case Some(hs) => Some([tok] + hs)
  }

  /** The reader only accepts what filling the template produces. */
  lemma {:induction false} ReadSound(lits: seq<string>, doc: string, hs: seq<string>)
    requires |lits| >= 1 && Read(lits, doc) == Some(hs)
    ensures |hs| + 1 == |lits| && AllPlain(hs) && Fill(lits, hs) == doc
  {
    var rest := doc[|lits[0]|..];
    assert doc == lits[0] + rest;
    if |lits| > 1 {
      var tok := Token(rest);
      var more := Read(lits[1..], rest[|tok|..]).value;
      assert hs == [tok] + more;
      ReadSound(lits[1..], rest[|tok|..], more);
      assert hs[1..] == more;
      assert rest == tok + rest[|tok|..];
    }
  }

  lemma TokenOfConcat(x: string, y: string)
    requires '"' !in x && y != [] && y[0] == '"'
    ensures Token(x + y) == x
  {
    var t := Token(x + y);
    assert forall k :: 0 <= k < |t| ==> (x + y)[k] != '"' by {
      forall k | 0 <= k < |t| ensures (x + y)[k] != '"' { assert (x + y)[k] == t[k]; }
    }
    assert (x + y)[|x|] == '"';
    assert forall k :: 0 <= k < |x| ==> (x + y)[k] != '"';
    assert |t| == |x|;
    assert t == (x + y)[..|x|] == x;
  }

  lemma TokenShort(x: string, y: string)
    requires '"' in x
    ensures |Token(x + y)| < |x|
  {
    var t := Token(x + y);
    var j :| 0 <= j < |x| && x[j] == '"';
    assert forall k :: 0 <= k < |t| ==> (x + y)[k] != '"' by {
      forall k | 0 <= k < |t| ensures (x + y)[k] != '"' { assert (x + y)[k] == t[k]; }
    }
    assert (x + y)[j] == '"';
  }

  lemma AfterPrefix(a: string, b: string)
    ensures StartsWith(a + b, a) && (a + b)[|a|..] == b
  {
    assert (a + b)[..|a|] == a;
  }

  lemma AllPlainCons(holes: seq<string>)
    requires holes != []
    ensures AllPlain(holes) <==> Plain(holes[0]) && AllPlain(holes[1..])
  {
    if Plain(holes[0]) && AllPlain(holes[1..]) {
      forall i | 0 <= i < |holes| ensures Plain(holes[i]) {
        if i > 0 { assert holes[i] == holes[1..][i - 1]; }
      }
    }
  }

  lemma QuotedTail(lits: seq<string>)
    requires lits != [] && QuotedHoles(lits)
    ensures QuotedHoles(lits[1..])
  {
    forall i | 1 <= i < |lits| - 1 ensures lits[1..][i] != [] && lits[1..][i][0] == '"' {
      assert lits[1..][i] == lits[i + 1];
    }
  }

  /** A hole holding a quote is cut short by the reader. */
  lemma ReadQuotedHole(lits: seq<string>, holes: seq<string>, tail: string)
    requires |lits| >= 2 && holes != [] && '"' in holes[0]
    ensures Read(lits, lits[0] + (holes[0] + tail)) != Some(holes)
  {
    var h := holes[0];
    AfterPrefix(lits[0], h + tail);
    TokenShort(h, tail);
    var tok := Token(h + tail);
    match Read(lits, lits[0] + (h + tail))
    case None =>
    case Some(hs) =>
      assert hs[0] == tok;
      assert |hs[0]| < |h|;
  }

  /** A quote-free first hole is read whole, and the rest is read from the next literal. */
  lemma ReadPlainHole(lits: seq<string>, h: string, tail: string)
    requires |lits| >= 2 && '"' !in h && tail != [] && tail[0] == '"'
    ensures Read(lits, lits[0] + (h + tail)) ==
      if !Plain(h) then None
      else match Read(lits[1..], tail)
        case None => None
        case Some(hs) => Some([h] + hs)
  {
    AfterPrefix(lits[0], h + tail);
    TokenOfConcat(h, tail);
    AfterPrefix(h, tail);
  }

  /** Round trip: a filled template reads back as exactly its holes when every
      hole is plain, and as something else (or nothing) as soon as one hole holds
      a quote, a backslash or a control character, since nothing is escaped. */
  lemma {:induction false} ReadFill(lits: seq<string>, holes: seq<string>)
    requires |lits| == |holes| + 1 && QuotedHoles(lits)
    ensures Read(lits, Fill(lits, holes)) == Some(holes) <==> AllPlain(holes)
  {
    if holes == [] {
      assert Fill(lits, holes)[|lits[0]|..] == [];
    } else {
      var h := holes[0];
      var tail := Fill(lits[1..], holes[1..]);
      FillStep(lits, holes);
      FillStartsWith(lits[1..], holes[1..]);
      assert tail != [] && tail[0] == '"';
      AllPlainCons(holes);
      if '"' in h {
        ReadQuotedHole(lits, holes, tail);
        var j :| 0 <= j < |h| && h[j] == '"';
        assert !PlainChar(h[j]);
      } else {
        QuotedTail(lits);
        ReadFill(lits[1..], holes[1..]);
        ReadPlainHole(lits, h, tail);
        assert [h] + holes[1..] == holes;
        match Read(lits[1..], tail)
        case None =>
        case Some(hs) =>
          assert [h] + hs == holes <==> hs == holes[1..];
      }
    }
  }

  /** Each hole is followed by a literal whose first character never occurs in it. */
  predicate Separated(lits: seq<string>, holes: seq<string>)
    requires |lits| == |holes| + 1
  {
    forall i :: 0 <= i < |holes| ==> EndsBefore(holes[i], lits[i + 1])
  }

  /** `hole` cannot run into `next`: `next` opens with a character `hole` lacks. */
  predicate EndsBefore(hole: string, next: string) {
    next != [] && next[0] !in hole
  }

  lemma SplitAtSeparator(x: string, b: string, y: string, c: string)
    requires b != [] && c != [] && b[0] == c[0] && b[0] !in x && c[0] !in y
    requires x + b == y + c
    ensures x == y && b == c
  {
    var s := x + b;
    assert forall k :: 0 <= k < |x| ==> s[k] != b[0];
    assert s[|x|] == b[0];
    assert forall k :: 0 <= k < |y| ==> (y + c)[k] != c[0];
    assert (y + c)[|y|] == c[0];
    assert |x| == |y|;
    assert x == s[..|x|] && y == (y + c)[..|y|];
    assert b == s[|x|..] && c == (y + c)[|y|..];
  }

  lemma SeparatedTail(lits: seq<string>, holes: seq<string>)
    requires |lits| == |holes| + 1 && holes != [] && Separated(lits, holes)
    ensures Separated(lits[1..], holes[1..])
  {
    var l, h := lits[1..], holes[1..];
    forall i | 0 <= i < |h|
      ensures EndsBefore(h[i], l[i + 1])
    {
      assert l[i + 1] == lits[i + 2] && h[i] == holes[i + 1];
    }
    assert Separated(l, h);
  }

  /** When separators are respected, a filled template determines its holes. */
  lemma {:induction false} FillInjective(lits: seq<string>, xs: seq<string>, ys: seq<string>)
    requires |lits| == |xs| + 1 && |xs| == |ys|
    requires Separated(lits, xs) && Separated(lits, ys)
    ensures Fill(lits, xs) == Fill(lits, ys) <==> xs == ys
  {
    if xs != [] && Fill(lits, xs) == Fill(lits, ys) {
      var fx := Fill(lits[1..], xs[1..]);
      var fy := Fill(lits[1..], ys[1..]);
      FillStartsWith(lits[1..], xs[1..]);
      FillStartsWith(lits[1..], ys[1..]);
      var l := lits[0];
      assert Fill(lits, xs) == l + (xs[0] + fx);
      assert Fill(lits, ys) == l + (ys[0] + fy);
      assert xs[0] + fx == (l + (xs[0] + fx))[|l|..];
      assert ys[0] + fy == (l + (ys[0] + fy))[|l|..];
      SplitAtSeparator(xs[0], fx, ys[0], fy);
      SeparatedTail(lits, xs);
      SeparatedTail(lits, ys);
      FillInjective(lits[1..], xs[1..], ys[1..]);
      assert xs == [xs[0]] + xs[1..] && ys == [ys[0]] + ys[1..];
    }
  }

  // ---------------------------------------------------------------------------
  // The `args` block
  // ---------------------------------------------------------------------------

  function DigitChar(d: nat): (c: char)
    requires d < 10
    ensures '0' <= c <= '9'
  {
    ('0' as int + d) as char
  }

  predicate Digits(s: string) {
    forall i :: 0 <= i < |s| ==> '0' <= s[i] <= '9'
  }

  /** Decimal text of a natural number, as `format!` prints an integer. */
  function Decimal(n: nat): (s: string)
    ensures s != [] && Digits(s)
    decreases n
  {
    if n < 10 then [DigitChar(n)] else Decimal(n / 10) + [DigitChar(n % 10)]
  }

  function DecimalValue(s: string): nat
    requires Digits(s)
    decreases |s|
  {
    if s == [] then 0 else 10 * DecimalValue(s[..|s| - 1]) + (s[|s| - 1] as int - '0' as int)
  }

  lemma {:induction false} DecimalRoundTrip(n: nat)
    ensures DecimalValue(Decimal(n)) == n
  {
    var s := Decimal(n);
    if n < 10 {
      assert s[..|s| - 1] == [];
    } else {
      DecimalRoundTrip(n / 10);
      assert s[..|s| - 1] == Decimal(n / 10);
    }
  }

  function ModeText(m: CheckMode): string {
    match m
    case SAFE => "SAFE"
    case UNSAFE => "UNSAFE"
  }

  function BoolText(b: bool): string {
    if b then "true" else "false"
  }

  /** The `args` section cut at its values; its layout is the one both renderers hard-code. */
  const ArgsTemplate: seq<string> := [
    "    \"args\": {\n        \"bits\": ",
    ",\n        \"check_mode\": \"",
    "\",\n        \"logrows\": ",
    ",\n        \"pack_base\": ",
    ",\n        \"public_inputs\": ",
    ",\n        \"public_outputs\": ",
    ",\n        \"public_params\": ",
    ",\n        \"scale\": ",
    ",\n        \"tolerance\": ",
    "\n      }\n  }"]

  function ArgValues(a: RunArgs): seq<string> {
    [Decimal(a.bits), ModeText(a.checkMode), Decimal(a.logrows), Decimal(a.packBase),
     BoolText(a.publicInputs), BoolText(a.publicOutputs), BoolText(a.publicParams),
     Decimal(a.scale), Decimal(a.tolerance)]
  }

  /** How a `RunArgs` value reads in the layout of the config files
      (`allocated_constraints` is not part of that layout). */
  function RenderArgs(a: RunArgs): string {
    Fill(ArgsTemplate, ArgValues(a))
  }

  /** The values both renderers write in their `args` block. */
  const ArgsBlockValues: seq<string> := ["16", "UNSAFE", "17", "1", "false", "true", "false", "7", "0"]

  /** The `args` block exactly as both format strings spell it, one line per field. */
  const ArgsBlock: string :=
    "    \"args\": {\n        \"bits\": " + ("16" + (
    ",\n        \"check_mode\": \"" + ("UNSAFE" + (
    "\",\n        \"logrows\": " + ("17" + (
    ",\n        \"pack_base\": " + ("1" + (
    ",\n        \"public_inputs\": " + ("false" + (
    ",\n        \"public_outputs\": " + ("true" + (
    ",\n        \"public_params\": " + ("false" + (
    ",\n        \"scale\": " + ("7" + (
    ",\n        \"tolerance\": " + ("0" + (
    "\n      }\n  }"))))))))))))))))))

  lemma DropOne<T>(s: seq<T>, k: nat)
    requires k < |s|
    ensures s[k..][1..] == s[k + 1..]
  {
  }

  /** One more slot of the args format, filled from the right. */
  lemma ArgsFillStep(k: nat, tail: string)
    requires k < 9 && Fill(ArgsTemplate[k + 1..], ArgsBlockValues[k + 1..]) == tail
    ensures Fill(ArgsTemplate[k..], ArgsBlockValues[k..]) == ArgsTemplate[k] + (ArgsBlockValues[k] + tail)
  {
    FillStep(ArgsTemplate[k..], ArgsBlockValues[k..]);
    DropOne(ArgsTemplate, k);
    DropOne(ArgsBlockValues, k);
  }

  /** The fields from `public_inputs` on, filled. */
  lemma ArgsLowerFilled()
    ensures Fill(ArgsTemplate[4..], ArgsBlockValues[4..]) ==
      ArgsTemplate[4] + (ArgsBlockValues[4] + (ArgsTemplate[5] + (ArgsBlockValues[5] + (ArgsTemplate[6] + (ArgsBlockValues[6] + (ArgsTemplate[7] + (ArgsBlockValues[7] + (ArgsTemplate[8] + (ArgsBlockValues[8] + ArgsTemplate[9])))))))))
  {
    var tail := ArgsTemplate[9];
    ArgsFillStep(8, tail);
    tail := ArgsTemplate[8] + (ArgsBlockValues[8] + tail);
    ArgsFillStep(7, tail);
    tail := ArgsTemplate[7] + (ArgsBlockValues[7] + tail);
    ArgsFillStep(6, tail);
    tail := ArgsTemplate[6] + (ArgsBlockValues[6] + tail);
    ArgsFillStep(5, tail);
    tail := ArgsTemplate[5] + (ArgsBlockValues[5] + tail);
    ArgsFillStep(4, tail);
    tail := ArgsTemplate[4] + (ArgsBlockValues[4] + tail);
  }

  /** The args block is the args format filled with its fixed values. */
  lemma ArgsBlockFilled()
    ensures ArgsBlock == Fill(ArgsTemplate, ArgsBlockValues)
  {
    ArgsLowerFilled();
    var tail := Fill(ArgsTemplate[4..], ArgsBlockValues[4..]);
    ArgsFillStep(3, tail);
    tail := ArgsTemplate[3] + (ArgsBlockValues[3] + tail);
    ArgsFillStep(2, tail);
    tail := ArgsTemplate[2] + (ArgsBlockValues[2] + tail);
    ArgsFillStep(1, tail);
    tail := ArgsTemplate[1] + (ArgsBlockValues[1] + tail);
    ArgsFillStep(0, tail);
    tail := ArgsTemplate[0] + (ArgsBlockValues[0] + tail);
    assert ArgsTemplate[0..] == ArgsTemplate && ArgsBlockValues[0..] == ArgsBlockValues;
  }

  lemma ArgValuesSeparated(a: RunArgs)
    ensures Separated(ArgsTemplate, ArgValues(a))
  {
    var v := ArgValues(a);
    assert ArgsTemplate[2][0] == '"';
    assert '"' !in ModeText(a.checkMode);
    assert ',' !in BoolText(a.publicInputs) && ',' !in BoolText(a.publicOutputs) && ',' !in BoolText(a.publicParams);
    forall i | 0 <= i < |v| ensures EndsBefore(v[i], ArgsTemplate[i + 1]) {
      if i == 1 {
      } else if 4 <= i <= 6 {
      } else {
        assert Digits(v[i]);
      }
    }
  }

  lemma DecimalInjective(n: nat, m: nat)
    ensures Decimal(n) == Decimal(m) <==> n == m
  {
    DecimalRoundTrip(n);
    DecimalRoundTrip(m);
  }

  lemma ArgValuesAreBlockValues(r: RunArgs)
    ensures ArgValues(r) == ArgsBlockValues <==>
      r.bits == 16 && r.checkMode == UNSAFE && r.logrows == 17 && r.packBase == 1 &&
      OnlyOutputsPublic(r) && r.scale == 7 && r.tolerance == 0
  {
    assert Decimal(16) == "16" && Decimal(17) == "17";
    assert Decimal(1) == "1" && Decimal(7) == "7" && Decimal(0) == "0";
    DecimalInjective(r.bits, 16);
    DecimalInjective(r.logrows, 17);
    DecimalInjective(r.packBase, 1);
    DecimalInjective(r.scale, 7);
    DecimalInjective(r.tolerance, 0);
    var v := ArgValues(r);
    assert v == ArgsBlockValues <==>
      v[0] == "16" && v[1] == "UNSAFE" && v[2] == "17" && v[3] == "1" && v[4] == "false" &&
      v[5] == "true" && v[6] == "false" && v[7] == "7" && v[8] == "0";
  }

  /** The text of the `args` block names exactly one set of run parameters:
      bits 16, check_mode UNSAFE, logrows 17, pack_base 1, only outputs public,
      scale 7 and tolerance 0. */
  lemma ArgsBlockDescribes(r: RunArgs)
    ensures RenderArgs(r) == ArgsBlock <==>
      r.bits == 16 && r.checkMode == UNSAFE && r.logrows == 17 && r.packBase == 1 &&
      OnlyOutputsPublic(r) && r.scale == 7 && r.tolerance == 0
  {
    ArgsBlockFilled();
    ArgValuesSeparated(r);
    // The block's own values are those of one `RunArgs`, so they are separated too.
    var block := RunArgs(16, UNSAFE, 17, 1, false, true, false, 7, 0, None);
    ArgValuesAreBlockValues(block);
    ArgValuesSeparated(block);
    FillInjective(ArgsTemplate, ArgValues(r), ArgsBlockValues);
    ArgValuesAreBlockValues(r);
  }

  // ---------------------------------------------------------------------------
  // The two config documents
  // ---------------------------------------------------------------------------

  function CommandOpen(tag: string): string {
    "{\n    \"command\": {\n      \"" + tag + "\": {\n"
  }

  /** Opens the string value of `key` on its own line. */
  function KeyOpen(key: string): string {
    "        \"" + key + "\": \""
  }

  /** A string field whose value is fixed text. */
  function KeyValue(key: string, value: string): string {
    KeyOpen(key) + value + "\""
  }

  /** Closes a hole's string and its line. */
  const NextKey := "\",\n"

  const CommandClose := "\n      }\n    },\n"

  /** The fixed fields that close the Prove command. */
  const ProveFixed := KeyValue("params_path", "kzg.params") + ",\n" + KeyValue("transcript", "EVM") + ",\n" +
    KeyValue("strategy", "Single") + CommandClose

  /** Everything after the last hole of the Prove format string. */
  const ProveTail := ProveFixed + ArgsBlock

  /** The format string of `generate_evm_config_json`, cut at its four holes. */
  const ProveTemplate: seq<string> := [
    CommandOpen("Prove") + KeyOpen("data"),
    NextKey + KeyOpen("model"),
    NextKey + KeyOpen("vk_path"),
    NextKey + KeyOpen("proof_path"),
    NextKey + ProveTail]

  /** The format string of `generate_genevm_config_json`, cut at its five holes. */
  const VerifierTemplate: seq<string> := [
    CommandOpen("CreateEVMVerifier") + KeyOpen("data"),
    NextKey + KeyOpen("model"),
    NextKey + KeyValue("params_path", "kzg.params") + ",\n" + KeyOpen("vk_path"),
    NextKey + KeyOpen("deployment_code_path"),
    NextKey + KeyOpen("sol_code_path"),
    "\"" + CommandClose + ArgsBlock]

  function GenerateEvmConfigJson(inputJsonPath: string, networkOnnxPath: string,
                                 vkPath: string, proofPath: string): string
  {
    Fill(ProveTemplate, [inputJsonPath, networkOnnxPath, vkPath, proofPath])
  }

  function GenerateGenevmConfigJson(inputJsonPath: string, networkOnnxPath: string, vkPath: string,
                                    deploymentCodePath: string, solCodePath: string): string
  {
    Fill(VerifierTemplate, [inputJsonPath, networkOnnxPath, vkPath, deploymentCodePath, solCodePath])
  }

  /** The key each hole of a template is the value of. */
  predicate Keyed(lits: seq<string>, keys: seq<string>) {
    |keys| + 1 == |lits| && forall i :: 0 <= i < |keys| ==> EndsWith(lits[i], KeyOpen(keys[i]))
  }

  lemma EndsWithConcat(a: string, b: string)
    ensures EndsWith(a + b, b)
  {
    assert (a + b)[|a + b| - |b|..] == b;
  }

  /** A literal that opens with the end of a string token. */
  lemma QuoteFirst(rest: string)
    ensures (NextKey + rest)[0] == '"' && ("\"" + rest)[0] == '"'
  {
  }

  lemma FirstOfConcat(a: string, b: string)
    requires a != []
    ensures (a + b)[0] == a[0]
  {
  }

  lemma ProveTemplateShape()
    ensures QuotedHoles(ProveTemplate)
    ensures Keyed(ProveTemplate, ["data", "model", "vk_path", "proof_path"])
  {
    ProveTemplateQuoted();
    ProveTemplateKeyed();
  }

  lemma ProveTemplateQuoted()
    ensures QuotedHoles(ProveTemplate)
  {
    QuoteFirst(KeyOpen("model"));
    QuoteFirst(KeyOpen("vk_path"));
    QuoteFirst(KeyOpen("proof_path"));
    QuoteFirst(ProveTail);
  }

  lemma ProveTemplateKeyed()
    ensures Keyed(ProveTemplate, ["data", "model", "vk_path", "proof_path"])
  {
    EndsWithConcat(CommandOpen("Prove"), KeyOpen("data"));
    EndsWithConcat(NextKey, KeyOpen("model"));
    EndsWithConcat(NextKey, KeyOpen("vk_path"));
    EndsWithConcat(NextKey, KeyOpen("proof_path"));
  }

  lemma VerifierTemplateShape()
    ensures QuotedHoles(VerifierTemplate)
    ensures Keyed(VerifierTemplate, ["data", "model", "vk_path", "deployment_code_path", "sol_code_path"])
    ensures EndsWith(VerifierTemplate[2], KeyValue("params_path", "kzg.params") + ",\n" + KeyOpen("vk_path"))
  {
    VerifierTemplateQuoted();
    VerifierTemplateKeyed();
  }

  lemma VerifierTemplateQuoted()
    ensures QuotedHoles(VerifierTemplate)
  {
    var t := VerifierTemplate;
    QuoteFirst(KeyOpen("model"));
    QuoteFirst(KeyValue("params_path", "kzg.params"));
    FirstOfConcat(NextKey + KeyValue("params_path", "kzg.params"), ",\n");
    FirstOfConcat(NextKey + KeyValue("params_path", "kzg.params") + ",\n", KeyOpen("vk_path"));
    QuoteFirst(KeyOpen("deployment_code_path"));
    QuoteFirst(KeyOpen("sol_code_path"));
    QuoteFirst(CommandClose);
    FirstOfConcat("\"" + CommandClose, ArgsBlock);
  }

  lemma VerifierTemplateKeyed()
    ensures Keyed(VerifierTemplate, ["data", "model", "vk_path", "deployment_code_path", "sol_code_path"])
    ensures EndsWith(VerifierTemplate[2], KeyValue("params_path", "kzg.params") + ",\n" + KeyOpen("vk_path"))
  {
    var params := KeyValue("params_path", "kzg.params") + ",\n";
    EndsWithConcat(CommandOpen("CreateEVMVerifier"), KeyOpen("data"));
    EndsWithConcat(NextKey, KeyOpen("model"));
    EndsWithConcat(NextKey + params, KeyOpen("vk_path"));
    EndsWithConcat(NextKey, params + KeyOpen("vk_path"));
    assert VerifierTemplate[2] == NextKey + (params + KeyOpen("vk_path"));
    EndsWithConcat(NextKey, KeyOpen("deployment_code_path"));
    EndsWithConcat(NextKey, KeyOpen("sol_code_path"));
  }

  lemma ProveConfigEnds(holes: seq<string>)
    requires |holes| == 4
    ensures EndsWith(Fill(ProveTemplate, holes), ProveTail)
    ensures EndsWith(Fill(ProveTemplate, holes), ArgsBlock)
  {
    FillEndsWith(ProveTemplate, holes);
    EndsWithSuffix(Fill(ProveTemplate, holes), NextKey, ProveTail);
    EndsWithSuffix(Fill(ProveTemplate, holes), ProveFixed, ArgsBlock);
  }

  lemma VerifierConfigEnds(holes: seq<string>)
    requires |holes| == 5
    ensures EndsWith(Fill(VerifierTemplate, holes), ArgsBlock)
  {
    FillEndsWith(VerifierTemplate, holes);
    EndsWithSuffix(Fill(VerifierTemplate, holes), "\"" + CommandClose, ArgsBlock);
  }

  lemma AllPlainOf4(a: string, b: string, c: string, d: string)
    ensures AllPlain([a, b, c, d]) <==> Plain(a) && Plain(b) && Plain(c) && Plain(d)
  {
    var h := [a, b, c, d];
    assert h[0] == a && h[1] == b && h[2] == c && h[3] == d;
  }

  lemma AllPlainOf5(a: string, b: string, c: string, d: string, e: string)
    ensures AllPlain([a, b, c, d, e]) <==> Plain(a) && Plain(b) && Plain(c) && Plain(d) && Plain(e)
  {
    var h := [a, b, c, d, e];
    assert h[0] == a && h[1] == b && h[2] == c && h[3] == d && h[4] == e;
  }

  /** The Prove document: tag `Prove`, its four arguments in the slots `data`,
      `model`, `vk_path` and `proof_path` (read back exactly when they need no
      escaping), and whatever the arguments, the fixed `params_path`,
      `transcript`, `strategy` fields and the shared `args` block. */
  lemma ProveConfigShape(data: string, model: string, vkPath: string, proofPath: string)
    ensures var doc := GenerateEvmConfigJson(data, model, vkPath, proofPath);
      StartsWith(doc, CommandOpen("Prove") + KeyOpen("data")) &&
      Keyed(ProveTemplate, ["data", "model", "vk_path", "proof_path"]) &&
      EndsWith(doc, ProveTail) &&
      EndsWith(doc, ArgsBlock) &&
      (Read(ProveTemplate, doc) == Some([data, model, vkPath, proofPath]) <==>
         Plain(data) && Plain(model) && Plain(vkPath) && Plain(proofPath))
  {
    var holes := [data, model, vkPath, proofPath];
    ProveTemplateShape();
    FillStartsWith(ProveTemplate, holes);
    ProveConfigEnds(holes);
    ReadFill(ProveTemplate, holes);
    AllPlainOf4(data, model, vkPath, proofPath);
  }

  /** The verifier document: tag `CreateEVMVerifier`, fields in the order data,
      model, params_path (fixed `kzg.params`), vk_path, deployment_code_path,
      sol_code_path, then the shared `args` block. */
  lemma VerifierConfigShape(data: string, model: string, vkPath: string, codePath: string, solPath: string)
    ensures var doc := GenerateGenevmConfigJson(data, model, vkPath, codePath, solPath);
      StartsWith(doc, CommandOpen("CreateEVMVerifier") + KeyOpen("data")) &&
      Keyed(VerifierTemplate, ["data", "model", "vk_path", "deployment_code_path", "sol_code_path"]) &&
      EndsWith(VerifierTemplate[2], KeyValue("params_path", "kzg.params") + ",\n" + KeyOpen("vk_path")) &&
      EndsWith(doc, ArgsBlock) &&
      (Read(VerifierTemplate, doc) == Some([data, model, vkPath, codePath, solPath]) <==>
         Plain(data) && Plain(model) && Plain(vkPath) && Plain(codePath) && Plain(solPath))
  {
    var holes := [data, model, vkPath, codePath, solPath];
    VerifierTemplateShape();
    FillStartsWith(VerifierTemplate, holes);
    VerifierConfigEnds(holes);
    ReadFill(VerifierTemplate, holes);
    AllPlainOf5(data, model, vkPath, codePath, solPath);
  }
}
