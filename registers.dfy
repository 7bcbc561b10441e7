/** A register (or memory word, or instruction) format as the `Csr` derive
    macro generates it: an ordered list of named bit fields, all built from
    the same raw word, printed as a title, an underline and one line per
    field. */
module Registers {
  import opened Arith
  import opened BitOps
  import opened Fmt
  import opened Decoders
  import opened Fields

  /** One declared field: `ident: BitField<decoder, start, end>`. */
  datatype FieldSpec = FieldSpec(ident: string, start: nat, end: nat, decoder: Decoder)

  /** A declaration `BitField::new` accepts, printable for every value. */
  predicate FieldOk(f: FieldSpec)
  {
    SpanOk(f.start, f.end) && Total(f.decoder)
  }

  /** The field declarations of the formats: each has an ordered span inside
      the word and a decoder that prints every value. */
  type Decl = f: FieldSpec | FieldOk(f) witness FieldSpec([], 0, 0, Bin)

  /** A declaration, checked where it is written. */
  function Declare(ident: string, start: nat, end: nat, decoder: Decoder): Decl
    requires SpanOk(start, end) && Total(decoder)
  {
    FieldSpec(ident, start, end, decoder)
  }

  /** A format: the struct's name and its fields in declaration order. */
  datatype Layout = Layout(name: string, fields: seq<Decl>)

  /** Rust identifiers, the struct's and its fields', have no line break. */
  predicate IdentsOk(l: Layout)
  {
    SingleLine(l.name) && forall i :: 0 <= i < |l.fields| ==> SingleLine(l.fields[i].ident)
  }

  /** `Csr::new(value)`: each field is `value.into()`, i.e. `BitField::new`. */
  function Build(l: Layout, raw: U64): (fs: seq<Field>)
    ensures |fs| == |l.fields|
  {
    seq(|l.fields|, i requires 0 <= i < |l.fields| => New(l.fields[i].start, l.fields[i].end, l.fields[i].decoder, raw))
  }

  /** Every field keeps its declaration and holds its own span of the one
      raw word. */
  lemma BuildMeaning(l: Layout, raw: U64, i: nat)
    requires i < |l.fields|
    ensures var f, s := Build(l, raw)[i], l.fields[i];
      f.start == s.start && f.end == s.end && f.decoder == s.decoder &&
      f.val == Window(raw, s.start, SpanSize(s.start, s.end))
  {
    NewMeaning(l.fields[i].start, l.fields[i].end, l.fields[i].decoder, raw);
  }

  /** The title: the struct's name in lower case. */
  function Title(l: Layout): string
  {
    Lower(l.name)
  }

  /** The underline: as many dashes as the title has characters. */
  function Underline(l: Layout): string
  {
    Repeat('-', |Title(l)|)
  }

  /** `"<ident>: {}"` filled with the field's `Display`. */
  function FieldLine(s: FieldSpec, f: Field): string
    requires Printable(f)
  {
    s.ident + ": " + Display(f)
  }

  /** The lines `fmt` writes, without their terminators. */
  function Lines(l: Layout, raw: U64): (ls: seq<string>)
    ensures |ls| == 2 + |l.fields|
  {
    var fs := Build(l, raw);
    [Title(l), Underline(l)] +
    seq(|l.fields|, i requires 0 <= i < |l.fields| =>
      NewPrintable(l.fields[i].start, l.fields[i].end, l.fields[i].decoder, raw);
      FieldLine(l.fields[i], fs[i]))
  }

  /** A sequence of `writeln!`: every line followed by a newline. */
  function Unlines(ls: seq<string>): string
  {
    if ls == [] then "" else ls[0] + "\n" + Unlines(ls[1..])
  }

  /** `Display::fmt` of a format built from `raw`. */
  function Render(l: Layout, raw: U64): string
  {
    Unlines(Lines(l, raw))
  }

  /** The length of the first line of a text. */
  function LineLength(s: string): (k: nat)
    ensures k <= |s| && (k < |s| ==> s[k] == '\n')
  {
    if s == [] || s[0] == '\n' then 0 else 1 + LineLength(s[1..])
  }

  /** The lines of a text: split at every newline, a final newline ending
      the last line rather than starting an empty one. */
  function SplitLines(s: string): seq<string>
    decreases |s|
  {
    if s == [] then []
    else
      var k := LineLength(s);
      if k == |s| then [s] else [s[..k]] + SplitLines(s[k + 1..])
  }

  /** A one-line text followed by a newline is a first line of its own length. */
  lemma {:induction false} LineLengthOf(line: string, rest: string)
    requires SingleLine(line)
    ensures LineLength(line + "\n" + rest) == |line|
    decreases |line|
  {
    if line != [] {
      var tail := line[1..];
      assert (line + "\n" + rest)[1..] == tail + "\n" + rest;
      LineLengthOf(tail, rest);
    }
  }

  /** Splitting what `writeln!` wrote gives back the lines written. */
  lemma {:induction false} SplitUnlines(ls: seq<string>)
    requires forall i :: 0 <= i < |ls| ==> SingleLine(ls[i])
    ensures SplitLines(Unlines(ls)) == ls
    decreases |ls|
  {
    if ls != [] {
      var rest := ls[1..];
      var s := ls[0] + "\n" + Unlines(rest);
      LineLengthOf(ls[0], Unlines(rest));
      assert s[..|ls[0]|] == ls[0];
      assert s[|ls[0]| + 1..] == Unlines(rest);
      SplitUnlines(rest);
    }
  }

  /** Splitting the printed text of a format at its newlines gives back
      the lines `fmt` wrote. */
  lemma RenderLines(l: Layout, raw: U64)
    requires IdentsOk(l)
    ensures SplitLines(Render(l, raw)) == Lines(l, raw)
  {
    var ls := Lines(l, raw);
    forall i | 0 <= i < |ls| ensures SingleLine(ls[i]) {
      if i == 0 {
        LowerSingleLine(l.name);
      } else if i >= 2 {
        var s := l.fields[i - 2];
        NewPrintable(s.start, s.end, s.decoder, raw);
        BetweenSingleLine(s.ident, ": ", Display(New(s.start, s.end, s.decoder, raw)));
      }
    }
    SplitUnlines(ls);
    assert Render(l, raw) == Unlines(ls);
  }

  /** The printed text of a format: exactly 2 + (number of fields) lines:
      the lower-cased name, dashes of the same length, then
      "<ident>: <decoded field>" per field in declaration order. */
  lemma RenderShape(l: Layout, raw: U64)
    requires IdentsOk(l)
    ensures var ls := SplitLines(Render(l, raw));
      |ls| == 2 + |l.fields| &&
      ls[0] == Lower(l.name) &&
      |ls[1]| == |ls[0]| && (forall j :: 0 <= j < |ls[1]| ==> ls[1][j] == '-') &&
      forall i :: 0 <= i < |l.fields| ==>
        var s := l.fields[i];
        Printable(New(s.start, s.end, s.decoder, raw)) &&
        ls[2 + i] == s.ident + ": " + Display(New(s.start, s.end, s.decoder, raw))
  {
    var ls := Lines(l, raw);
    RenderLines(l, raw);
    forall i | 0 <= i < |l.fields|
      ensures Printable(New(l.fields[i].start, l.fields[i].end, l.fields[i].decoder, raw))
    {
      NewPrintable(l.fields[i].start, l.fields[i].end, l.fields[i].decoder, raw);
      assert ls[2 + i] == FieldLine(l.fields[i], Build(l, raw)[i]);
    }
  }

  /** The spans of a format's fields, in print order. */
  function Spans(l: Layout): (sp: seq<(nat, nat)>)
    ensures |sp| == |l.fields|
    ensures forall i :: 0 <= i < |sp| ==> sp[i] == (l.fields[i].start, l.fields[i].end)
  {
    seq(|l.fields|, i requires 0 <= i < |l.fields| => (l.fields[i].start, l.fields[i].end))
  }

  /** The spans from the last field to the first. */
  function Reverse(sp: seq<(nat, nat)>): (r: seq<(nat, nat)>)
    ensures |r| == |sp| && forall i :: 0 <= i < |sp| ==> r[i] == sp[|sp| - 1 - i]
  {
    seq(|sp|, i requires 0 <= i < |sp| => sp[|sp| - 1 - i])
  }

  /** Field `i` shows bit `b`. */
  predicate Covers(l: Layout, i: nat, b: nat)
  {
    i < |l.fields| && l.fields[i].start <= b <= l.fields[i].end
  }

  /** Some field shows bit `b`. */
  ghost predicate Shown(l: Layout, b: nat)
  {
    exists i: nat :: Covers(l, i, b)
  }

  /** Every bit from 0 to `top` is shown by exactly one field, and no field
      shows a bit above `top`. */
  ghost predicate EachBitOnce(l: Layout, top: nat)
  {
    (forall b: nat :: b <= top ==> Shown(l, b)) &&
    (forall b: nat, i: nat, j: nat :: Covers(l, i, b) && Covers(l, j, b) ==> i == j) &&
    (forall b: nat, i: nat :: Covers(l, i, b) ==> b <= top)
  }

  /** The spans of a format read from its first field (`ascending` false)
      or from its last (`ascending` true). */
  function SpansFrom(l: Layout, ascending: bool): (gs: seq<(nat, nat)>)
    ensures |gs| == |l.fields|
    ensures forall i :: 0 <= i < |gs| ==>
      gs[if ascending then |gs| - 1 - i else i] == (l.fields[i].start, l.fields[i].end)
  {
    if ascending then Reverse(Spans(l)) else Spans(l)
  }

  /** Fields declared from bit 0 upwards, each starting just above the
      previous one, tile the bits up to the last field's end. */
  predicate Ascending(l: Layout)
  {
    |l.fields| >= 1 && l.fields[0].start == 0 &&
    forall i :: 1 <= i < |l.fields| ==> l.fields[i].start == l.fields[i - 1].end + 1
  }

  lemma AscendingTiles(l: Layout)
    requires Ascending(l)
    ensures Tiles(SpansFrom(l, true)) && SpansFrom(l, true)[0].1 == l.fields[|l.fields| - 1].end
  {
    var sp := Spans(l);
    assert SpansFrom(l, true) == Reverse(sp);
    forall i | 0 <= i < |sp| ensures sp[i].0 <= sp[i].1 <= 63 {
      assert sp[i] == (l.fields[i].start, l.fields[i].end);
    }
    ReverseTiles(sp);
  }

  /** Spans going up from bit 0, each starting just above the previous one,
      tile from the last one's end down when read backwards. */
  lemma ReverseTiles(sp: seq<(nat, nat)>)
    requires |sp| >= 1 && sp[0].0 == 0 && SpansInWord(sp)
    requires forall i :: 1 <= i < |sp| ==> sp[i].0 == sp[i - 1].1 + 1
    ensures Tiles(Reverse(sp)) && Reverse(sp)[0].1 == sp[|sp| - 1].1
  {
    var gs, n := Reverse(sp), |sp|;
    forall i | 0 <= i < n ensures gs[i].0 <= gs[i].1 <= 63 {
      assert gs[i] == sp[n - 1 - i];
    }
    forall i | 1 <= i < n ensures gs[i].1 + 1 == gs[i - 1].0 {
      var k := n - 1 - i;
      assert gs[i] == sp[k] && gs[i - 1] == sp[k + 1];
    }
  }

  /** A format whose spans tile the bits `top` down to 0, read either from
      the first field or from the last, shows each of those bits once. */
  lemma TiledEachBitOnce(l: Layout, top: nat, ascending: bool)
    requires Tiles(SpansFrom(l, ascending)) && SpansFrom(l, ascending)[0].1 == top
    ensures EachBitOnce(l, top)
  {
    forall b: nat | b <= top ensures Shown(l, b) {
      TiledShown(l, top, ascending, b);
    }
    forall b: nat, i: nat, j: nat | Covers(l, i, b) && Covers(l, j, b) ensures i == j && b <= top {
      TiledOnce(l, top, ascending, b, i, j);
    }
  }

  lemma TiledShown(l: Layout, top: nat, ascending: bool, b: nat)
    requires Tiles(SpansFrom(l, ascending)) && SpansFrom(l, ascending)[0].1 == top && b <= top
    ensures Shown(l, b)
  {
    var gs := SpansFrom(l, ascending);
    var n := |gs|;
    TilesPartition(gs, b);
    var k :| 0 <= k < n && gs[k].0 <= b <= gs[k].1;
    var i := if ascending then n - 1 - k else k;
    assert gs[if ascending then n - 1 - i else i] == (l.fields[i].start, l.fields[i].end);
    assert Covers(l, i, b);
  }

  lemma TiledOnce(l: Layout, top: nat, ascending: bool, b: nat, i: nat, j: nat)
    requires Tiles(SpansFrom(l, ascending)) && SpansFrom(l, ascending)[0].1 == top
    requires Covers(l, i, b) && Covers(l, j, b)
    ensures i == j && b <= top
  {
    var gs := SpansFrom(l, ascending);
    var n := |gs|;
    TilesPartition(gs, b);
    var gi, gj := if ascending then n - 1 - i else i, if ascending then n - 1 - j else j;
    assert gs[gi] == (l.fields[i].start, l.fields[i].end);
    assert gs[gj] == (l.fields[j].start, l.fields[j].end);
    assert gi == gj;
  }

  /** The values of a tiling format's fields, put back at their bit
      positions, are the low bits of the raw word up to `top`: printing
      such a format loses no bit of them. */
  lemma TiledReassemble(l: Layout, raw: U64, top: nat, ascending: bool)
    requires Tiles(SpansFrom(l, ascending)) && SpansFrom(l, ascending)[0].1 == top
    ensures Reassemble(SpansFrom(l, ascending), raw) == raw % Pow2(top + 1)
  {
    ReassembleTiles(SpansFrom(l, ascending), raw);
  }

  /** Field line `i` is the identifier, ": " and the field's decoder applied
      to its span of the raw word. */
  lemma FieldText(l: Layout, raw: U64, i: nat)
    requires i < |l.fields|
    ensures var s := l.fields[i];
      var n := SpanSize(s.start, s.end);
      var v := New(s.start, s.end, s.decoder, raw).val;
      v == Window(raw, s.start, n) && Decodable(s.decoder, v, n) &&
      Lines(l, raw)[2 + i] == s.ident + ": " + Decode(s.decoder, v, n)
  {
    var s := l.fields[i];
    NewMeaning(s.start, s.end, s.decoder, raw);
    NewPrintable(s.start, s.end, s.decoder, raw);
    assert Lines(l, raw)[2 + i] == FieldLine(s, Build(l, raw)[i]);
  }

  /** A `Hex` field prints "0x" and its value in lower-case hex. */
  lemma HexLine(l: Layout, i: nat, raw: U64)
    requires i < |l.fields| && l.fields[i].decoder == Hex
    ensures var d := l.fields[i];
      Lines(l, raw)[2 + i] == d.ident + ": 0x" + LowerHex(Window(raw, d.start, SpanSize(d.start, d.end)))
  {
    FieldText(l, raw, i);
  }

  /** A `Bin` field prints its value as a binary numeral padded to the
      field's width. */
  lemma BinLine(l: Layout, i: nat, raw: U64)
    requires i < |l.fields| && l.fields[i].decoder == Bin
    ensures var d := l.fields[i];
      var n := SpanSize(d.start, d.end);
      var v := Window(raw, d.start, n);
      |Binary(v)| <= n && Lines(l, raw)[2 + i] == d.ident + ": " + BinText(v, n)
  {
    FieldText(l, raw, i);
  }

  /** A `Dec` field prints its value in decimal. */
  lemma DecLine(l: Layout, i: nat, raw: U64)
    requires i < |l.fields| && l.fields[i].decoder == Dec
    ensures var d := l.fields[i];
      var v := Window(raw, d.start, SpanSize(d.start, d.end));
      Lines(l, raw)[2 + i] == d.ident + ": " + Decimal(v)
  {
    FieldText(l, raw, i);
  }

  /** A first field `page_offset` over bits 0..11, in hex, prints the low
      12 bits of the word. */
  lemma PageOffsetLine(l: Layout, raw: U64)
    requires |l.fields| >= 1 && l.fields[0] == FieldSpec("page_offset", 0, 11, Hex)
    ensures Lines(l, raw)[2] == "page_offset: 0x" + LowerHex(raw % 4096)
  {
    HexLine(l, 0, raw);
    LowWindow(raw, 12);
    assert Pow2(12) == 4096;
  }

  /** A field shown through `RSh<n, Hex>` prints its value in hex, then
      " -> " and the value times 2^n, when that stays inside the word. */
  lemma RShHexLine(l: Layout, i: nat, raw: U64)
    requires i < |l.fields| && l.fields[i].decoder.RSh? && l.fields[i].decoder.inner == Hex
    requires SpanSize(l.fields[i].start, l.fields[i].end) + l.fields[i].decoder.shift <= 64
    ensures var d := l.fields[i];
      var v := Window(raw, d.start, d.end - d.start + 1);
      var m := Pow2(d.decoder.shift);
      Lines(l, raw)[2 + i] == d.ident + ": 0x" + LowerHex(v) + " -> 0x" + LowerHex(v * m)
  {
    var d := l.fields[i];
    var w, n := SpanSize(d.start, d.end), d.decoder.shift;
    var v := New(d.start, d.end, d.decoder, raw).val;
    FieldText(l, raw, i);
    NewMeaning(d.start, d.end, d.decoder, raw);
    ShiftFits(v, w, n);
    RShMeaning(n, Hex, v, w);
  }

  /** A page-number field of at most 44 bits holds fewer than 2^44 and
      prints as its scheme's page-number text. */
  lemma PpnLine(l: Layout, i: nat, s: Scheme, raw: U64)
    requires i < |l.fields| && l.fields[i].ident == "ppn" && l.fields[i].decoder == Ppn(s)
    requires SpanSize(l.fields[i].start, l.fields[i].end) <= 44
    ensures var f := Build(l, raw)[i];
      f.val == Window(raw, f.start, SpanSize(f.start, f.end)) && f.val < Pow2(44) &&
      Lines(l, raw)[2 + i] == "ppn: " + PpnText(s, f.val)
  {
    var d := l.fields[i];
    var n := SpanSize(d.start, d.end);
    var v := New(d.start, d.end, d.decoder, raw).val;
    FieldText(l, raw, i);
    assert Build(l, raw)[i] == New(d.start, d.end, d.decoder, raw);
    assert Decode(Ppn(s), v, n) == PpnText(s, v);
    NewMeaning(d.start, d.end, d.decoder, raw);
    Pow2Monotone(n, 44);
  }

  /** A field over the whole word holds the raw word itself. */
  lemma WholeWord(raw: U64)
    ensures Window(raw, 0, 64) == raw
  {
    Pow2Word();
    assert Pow2(0) == 1;
  }

  /** Lower-casing keeps a text on one line. */
  lemma LowerSingleLine(s: string)
    requires SingleLine(s)
    ensures SingleLine(Lower(s))
  {
    forall i | 0 <= i < |s| ensures Lower(s)[i] != '\n' {
      assert s[i] != '\n';
    }
  }
}
